/** The write queue with its fields updated in place; each method is one handler run on the strand. */
module WriteQueues {
  import opened WriteQueue

  class WriteQueueSG {
    const maxQueueSize: nat
    var writeQueue: seq<Entry>
    var maxQueueEnabled: bool
    var writing: bool
    var gracefulShutdown: bool
    var inFlight: seq<Entry>       // what the stream has been given and not completed
    var nextId: nat
    ghost var hist: History

    ghost function Abs(): State
      reads this
    {
      State(maxQueueSize, writeQueue, maxQueueEnabled, writing, gracefulShutdown, inFlight, hist)
    }

    ghost predicate Valid()
      reads this
    {
      nextId == hist.next
    }

    constructor (maxQueue: nat)
      ensures Valid() && Abs() == Init(maxQueue)
    {
      maxQueueSize := maxQueue;
      writeQueue, maxQueueEnabled, writing, gracefulShutdown := [], true, false, false;
      inFlight, nextId := [], 0;
      hist := Init(maxQueue).hist;
    }

    method SetMaxQueue(enable: bool)
      requires Valid()
      modifies this`maxQueueEnabled
      ensures Valid() && Abs() == DoOp(old(Abs()), EnableMaxQueue(enable))
    {
      maxQueueEnabled := enable;
    }

    ghost method FireHandler(e: Entry, success: bool)
      modifies this`hist
      ensures hist == old(hist).(fired := Fired(old(hist).fired, e, success))
    {
      hist := hist.(fired := Fired(hist.fired, e, success));
    }

    method AsyncSend(notify: bool)
      requires Valid()
      modifies this
      ensures Valid() && Abs() == DoOp(old(Abs()), Send(notify))
    {
      var e := Entry(nextId, notify);
      nextId := nextId + 1;
      if maxQueueEnabled && |writeQueue| >= maxQueueSize {
        FireHandler(e, false);
        hist := hist.(next := hist.next + 1, rejected := hist.rejected + [e]);
      } else {
        writeQueue := writeQueue + [e];
        hist := hist.(next := hist.next + 1, accepted := hist.accepted + [e]);
        if !writing {
          WriteFront();
        }
      }
    }

    method CloseQueue(force: bool)
      requires Valid()
      modifies this
      ensures Valid() && Abs() == DoOp(old(Abs()), Close(force))
    {
      if force {
        ClearQueue();
        writing := false;
      } else {
        gracefulShutdown := true;
      }
    }

    method ClearQueue()
      modifies this`writeQueue, this`hist
      ensures Abs() == Cleared(old(Abs()))
    {
      hist := hist.(discarded := hist.discarded + writeQueue);
      writeQueue := [];
    }

    /** Hands the front of the queue to async_write, if there is one. */
    method WriteFront()
      requires Valid()
      modifies this
      ensures Valid() && Abs() == DoWrite(old(Abs()))
    {
      if writeQueue == [] {
        writing := false;
        if gracefulShutdown {
          writeQueue := [];
        }
      } else {
        writing := true;
        var front := writeQueue[0];
        writeQueue := writeQueue[1..];
        inFlight := inFlight + [front];
        hist := hist.(written := hist.written + [front]);
      }
    }

    method Perform(op: Op)
      requires Valid()
      modifies this
      ensures Valid() && Abs() == DoOp(old(Abs()), op)
    {
      match op
      case Send(notify) => AsyncSend(notify);
      case Close(force) => CloseQueue(force);
      case EnableMaxQueue(enable) => SetMaxQueue(enable);
    }

    /** Completion of the k-th write: the handler, the calls it makes, then the continuation. */
    method OnWritten(k: nat, ok: bool, nested: seq<Op>)
      requires Valid() && Enabled(Abs(), Complete(k, ok, nested))
      modifies this
      ensures Valid() && Abs() == Step(old(Abs()), Complete(k, ok, nested))
    {
      var e := inFlight[k];
      inFlight := inFlight[..k] + inFlight[k + 1..];
      FireHandler(e, ok);
      hist := hist.(completed := hist.completed + [e]);
      ghost var delivered := Abs();
      assert delivered == Delivered(old(Abs()), k, ok);
      var i := 0;
      while i < |nested|
        invariant 0 <= i <= |nested| && Valid()
        invariant DoOps(Abs(), nested[i..]) == DoOps(delivered, nested)
      {
        assert nested[i..][0] == nested[i] && nested[i..][1..] == nested[i + 1..];
        Perform(nested[i]);
        i := i + 1;
      }
      if ok {
        WriteFront();
      } else {
        ClearQueue();
        hist := hist.(failed := true);
      }
    }

    method Handle(event: Event)
      requires Valid() && Enabled(Abs(), event)
      modifies this
      ensures Valid() && Abs() == Step(old(Abs()), event)
    {
      match event
      case Call(op) => Perform(op);
      case Complete(k, ok, nested) => OnWritten(k, ok, nested);
    }
  }
}
