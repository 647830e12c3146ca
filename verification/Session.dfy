/** The session with its fields updated in place; each method is one handler run by the executor. */
module Sessions {
  import opened SessionModel

  class Session {
    const notifies: bool
    var writeDeque: seq<nat>
    var writeInProgress: bool
    var shutdownInProgress: bool
    var gracefulShutdown: bool
    var framer: bool
    var nextMessage: nat
    // the asynchronous operations and the socket
    var writesOut: seq<nat>
    var readsOut: nat
    var socketClosed: bool
    ghost var hist: History

    ghost function Abs(): State
      reads this
    {
      State(notifies, writeDeque, writeInProgress, shutdownInProgress, gracefulShutdown, framer,
            writesOut, readsOut, socketClosed, hist)
    }

    ghost predicate Valid()
      reads this
    {
      nextMessage == |hist.accepted|
    }

    /** Construction and Start. */
    constructor (notifies: bool)
      ensures Valid() && Abs() == Init(notifies)
    {
      this.notifies := notifies;
      writeDeque, writeInProgress, shutdownInProgress, gracefulShutdown, framer := [], false, false, false, true;
      nextMessage, writesOut, readsOut, socketClosed := 0, [], 1, false;
      hist := Init(notifies).hist;
    }

    method AsyncSend(frames: bool)
      requires Valid() && OpAllowed(Abs(), Send(frames))
      modifies this
      ensures Valid() && Abs() == DoOp(old(Abs()), Send(frames))
    {
      if frames {
        writeDeque := writeDeque + [nextMessage];
        hist := hist.(accepted := hist.accepted + [nextMessage]);
        nextMessage := nextMessage + 1;
        if !writeInProgress {
          WriteFront();
        }
      }
    }

    method WriteFront()
      requires Valid()
      modifies this
      ensures Valid() && Abs() == WriteNext(old(Abs()))
    {
      if writeDeque == [] {
        writeInProgress := false;
        if gracefulShutdown {
          ForceClose(SelfClose);
        }
      } else {
        writeInProgress := true;
        var front := writeDeque[0];
        writeDeque := writeDeque[1..];
        writesOut := writesOut + [front];
        hist := hist.(written := hist.written + [front]);
      }
    }

    method ForceClose(ghost cause: Cause)
      requires Valid()
      modifies this
      ensures Valid() && Abs() == ForceClosed(old(Abs()), cause)
    {
      if !shutdownInProgress {
        shutdownInProgress := true;
        socketClosed := true;
        hist := hist.(discarded := hist.discarded + writeDeque, cause := cause, cut := |hist.accepted|);
        writeDeque := [];
      }
    }

    method CloseSession(force: bool)
      requires Valid()
      modifies this
      ensures Valid() && Abs() == DoOp(old(Abs()), Close(force))
    {
      if shutdownInProgress {
        return;
      }
      if force {
        ForceClose(UserClose);
      } else {
        gracefulShutdown := true;
        if !writeInProgress && writeDeque == [] {
          ForceClose(SelfClose);
        }
      }
    }

    method Perform(op: Op)
      requires Valid() && OpAllowed(Abs(), op)
      modifies this
      ensures Valid() && Abs() == DoOp(old(Abs()), op)
      ensures framer == old(framer)
    {
      match op
      case Send(frames) => AsyncSend(frames);
      case Close(force) => CloseSession(force);
    }

    /** The calls a user's handler makes, one after the other. */
    method PerformAll(calls: seq<Op>)
      requires Valid() && framer
      modifies this
      ensures Valid() && Abs() == DoOps(old(Abs()), calls)
    {
      var i := 0;
      while i < |calls|
        invariant 0 <= i <= |calls| && Valid() && framer
        invariant DoOps(Abs(), calls[i..]) == DoOps(old(Abs()), calls)
      {
        assert calls[i..][0] == calls[i] && calls[i..][1..] == calls[i + 1..];
        Perform(calls[i]);
        i := i + 1;
      }
    }

    /** The error and timeout path. */
    method Shutdown(calls: seq<Op>)
      requires Valid() && (shutdownInProgress || framer)
      modifies this
      ensures Valid() && Abs() == ShutDown(old(Abs()), calls)
    {
      if shutdownInProgress {
        return;
      }
      shutdownInProgress := true;
      hist := hist.(cause := ErrorPath, cut := |hist.accepted|);
      Tell(calls);
      ForceClose(UserClose);
      CleanUp();
    }

    method Tell(calls: seq<Op>)
      requires Valid() && framer
      modifies this
      ensures Valid() && Abs() == Told(old(Abs()), calls)
    {
      if notifies {
        hist := hist.(disconnects := hist.disconnects + 1);
        PerformAll(calls);
      }
    }

    method CleanUp()
      requires Valid()
      modifies this
      ensures Valid() && Abs() == CleanedUp(old(Abs()))
    {
      hist := hist.(discarded := hist.discarded + writeDeque);
      writeDeque := [];
      framer := false;
    }

    method BeginRead()
      requires Valid()
      modifies this
      ensures Valid() && Abs() == StartRead(old(Abs()))
    {
      if !shutdownInProgress {
        readsOut := readsOut + 1;
        hist := hist.(readsStarted := hist.readsStarted + 1);
      }
    }

    method OnWritten(k: nat, ok: bool, calls: seq<Op>)
      requires Valid() && Consistent(Abs()) && Enabled(Abs(), WriteDone(k, ok, calls))
      modifies this
      ensures Valid() && Abs() == Step(old(Abs()), WriteDone(k, ok, calls))
    {
      ghost var done := hist.(completed := hist.completed + [writesOut[k]]);
      writesOut := writesOut[..k] + writesOut[k + 1..];
      if ok {
        hist := done;
        writeInProgress := false;
        assert Abs() == WriteCompleted(old(Abs()), k).(writing := false);
        WriteFront();
      } else {
        Shutdown(calls);
      }
    }

    method OnRead(ok: bool, calls: seq<Op>)
      requires Valid() && Consistent(Abs()) && Enabled(Abs(), ReadDone(ok, calls))
      modifies this
      ensures Valid() && Abs() == Step(old(Abs()), ReadDone(ok, calls))
    {
      readsOut := readsOut - 1;
      if shutdownInProgress {
        return;
      }
      if ok {
        PerformAll(calls);
        BeginRead();
      } else {
        Shutdown(calls);
      }
    }

    method OnTimer(calls: seq<Op>)
      requires Valid() && Consistent(Abs())
      modifies this
      ensures Valid() && Abs() == Step(old(Abs()), TimerFired(calls))
    {
      if !shutdownInProgress {
        Shutdown(calls);
      }
    }

    /** One event; the session stays orderly and consistent. */
    method Handle(event: Event)
      requires Valid() && Orderly(Abs()) && Consistent(Abs()) && Enabled(Abs(), event)
      modifies this
      ensures Valid() && Abs() == Step(old(Abs()), event)
      ensures Orderly(Abs()) && Consistent(Abs())
    {
      StepKeepsOrderly(Abs(), event);
      StepKeepsConsistent(Abs(), event);
      match event
      case Call(op) => Perform(op);
      case WriteDone(k, ok, calls) => OnWritten(k, ok, calls);
      case ReadDone(ok, calls) => OnRead(ok, calls);
      case TimerFired(calls) => OnTimer(calls);
    }
  }
}
