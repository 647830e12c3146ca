/** The log adapter with its fields updated in place, one method for each atomic step. */
module LogAdapters {
  import opened Sums
  import opened LogModel

  class LogAdapter {
    const limit: nat
    var running: bool
    var stopped: bool
    var owner: Option<nat>
    var queue: seq<Message>
    var dropped: nat
    var mark: nat
    var producers: seq<ProducerPc>
    var worker: WorkerPc
    var dtor: DtorPc
    ghost var hist: History

    ghost function Abs(): State
      reads this
    {
      State(limit, running, stopped, owner, queue, dropped, mark, producers, worker, dtor, hist)
    }

    constructor (limit: nat, threads: nat)
      ensures Abs() == Init(limit, threads)
    {
      this.limit := limit;
      running, stopped, owner := true, false, None;
      queue, dropped, mark := [], 0, 0;
      producers := seq(threads, i => Idle);
      worker, dtor := Top, Alive;
      hist := Init(limit, threads).hist;
      new;
      assert producers == Init(limit, threads).producers;
    }

    // ---------- Log and Enqueue ----------

    method Log(p: nat, msg: Message)
      requires ProducerEnabled(Abs(), p, Begin(msg))
      modifies this
      ensures Abs() == ProducerStep(old(Abs()), p, Begin(msg))
    {
      producers := producers[p := Sizing(msg)];
      hist := hist.(begun := hist.begun + [msg]);
    }

    method ReadQueueSize(p: nat)
      requires ProducerEnabled(Abs(), p, ReadSize)
      modifies this
      ensures Abs() == ProducerStep(old(Abs()), p, ReadSize)
    {
      var msg := producers[p].msg;
      if |queue| >= limit {
        Drop(p, msg);
      } else {
        producers := producers[p := Passed(msg)];
      }
    }

    method Drop(p: nat, msg: Message)
      requires p < |producers|
      modifies this
      ensures Abs() == Dropped(old(Abs()), p, msg)
    {
      dropped := dropped + 1;
      producers := producers[p := Idle];
      hist := hist.(dropLog := hist.dropLog + [msg]);
    }

    /** Looks again under the lock, after the backoff; if it appends, the lock stays held. */
    method RecheckAndAppend(p: nat)
      requires ProducerEnabled(Abs(), p, Recheck)
      modifies this
      ensures Abs() == ProducerStep(old(Abs()), p, Recheck)
    {
      var msg := producers[p].msg;
      if |queue| >= limit {
        Drop(p, msg);
      } else {
        owner := Some(p);
        queue := queue + [msg];
        producers := producers[p := Appended(|queue|)];
        hist := hist.(appended := hist.appended + [msg], peak := Max(hist.peak, |queue|));
      }
    }

    method LoadHighWaterMark(p: nat)
      requires ProducerEnabled(Abs(), p, LoadMark)
      modifies this
      ensures Abs() == ProducerStep(old(Abs()), p, LoadMark)
    {
      producers := producers[p := Marking(producers[p].len, mark)];
    }

    /** One turn of the compare-and-swap loop; the weak form may fail for no reason. */
    method TrySwapMark(p: nat, spurious: bool) returns (ok: bool)
      requires ProducerEnabled(Abs(), p, RetryMark)
      modifies this
      ensures ok <==> !spurious && old(mark == producers[p].prev)
      ensures ok ==> old(ProducerEnabled(Abs(), p, SwapMark)) && Abs() == ProducerStep(old(Abs()), p, SwapMark)
      ensures !ok ==> Abs() == ProducerStep(old(Abs()), p, RetryMark)
    {
      var pc := producers[p];
      ok := !spurious && mark == pc.prev;
      if ok {
        mark := pc.len;
        producers := producers[p := Marking(pc.len, pc.len)];
      } else {
        producers := producers[p := Marking(pc.len, mark)];
      }
    }

    method UnlockQueue(p: nat)
      requires ProducerEnabled(Abs(), p, Unlock)
      modifies this
      ensures Abs() == ProducerStep(old(Abs()), p, Unlock)
    {
      owner := None;
      producers := producers[p := Owing];
    }

    method SendSignal(p: nat)
      requires ProducerEnabled(Abs(), p, ProducerAct.Signal)
      modifies this
      ensures Abs() == ProducerStep(old(Abs()), p, ProducerAct.Signal)
    {
      producers := producers[p := Idle];
      worker := Woke(worker);
    }

    // ---------- ProcessLoop ----------

    /** The critical section of the loop: leave, wait, or swap the queue out. */
    method TestAndSwap()
      requires WorkerEnabled(Abs(), Test)
      modifies this
      ensures Abs() == WorkerStep(old(Abs()), Test)
    {
      if !running && queue == [] {
        worker := Leaving;
      } else if queue == [] {
        worker := Asleep;
      } else {
        worker := Dispatching(queue);
        queue := [];
      }
    }

    method WakeSpuriously()
      requires WorkerEnabled(Abs(), SpuriousWake)
      modifies this
      ensures Abs() == WorkerStep(old(Abs()), SpuriousWake)
    {
      worker := Woken;
    }

    method RejoinLoop()
      requires WorkerEnabled(Abs(), Rejoin)
      modifies this
      ensures Abs() == WorkerStep(old(Abs()), Rejoin)
    {
      worker := Top;
    }

    method DispatchNext()
      requires WorkerEnabled(Abs(), DispatchOne)
      modifies this
      ensures Abs() == WorkerStep(old(Abs()), DispatchOne)
    {
      hist := hist.(dispatched := hist.dispatched + [worker.batch[0]]);
      worker := Dispatching(worker.batch[1..]);
    }

    method EndOfBatch()
      requires WorkerEnabled(Abs(), EndBatch)
      modifies this
      ensures Abs() == WorkerStep(old(Abs()), EndBatch)
    {
      HandleDrops();
      worker := Top;
    }

    method SwapFinally()
      requires WorkerEnabled(Abs(), WorkerAct.FinalSwap)
      modifies this
      ensures Abs() == WorkerStep(old(Abs()), WorkerAct.FinalSwap)
    {
      worker := Draining(queue);
      queue := [];
      hist := hist.(swapMark := Some(|hist.appended|));
    }

    method DrainNext()
      requires WorkerEnabled(Abs(), DrainOne)
      modifies this
      ensures Abs() == WorkerStep(old(Abs()), DrainOne)
    {
      hist := hist.(dispatched := hist.dispatched + [worker.batch[0]]);
      worker := Draining(worker.batch[1..]);
    }

    method EndOfDrain()
      requires WorkerEnabled(Abs(), EndDrain)
      modifies this
      ensures Abs() == WorkerStep(old(Abs()), EndDrain)
    {
      HandleDrops();
      worker := Stopping;
    }

    method StoreStopped()
      requires WorkerEnabled(Abs(), WorkerAct.Stop)
      modifies this
      ensures Abs() == WorkerStep(old(Abs()), WorkerAct.Stop)
    {
      worker := Stopped;
      stopped := true;
    }

    method HandleDrops()
      modifies this`dropped, this`hist
      ensures Abs() == DropsTaken(old(Abs()))
    {
      hist := hist.(reported := hist.reported + dropped);
      dropped := 0;
    }

    // ---------- the destructor and the drop counter's reader ----------

    method StopUnderLock()
      requires OtherEnabled(Abs(), StoreStop)
      modifies this
      ensures Abs() == OtherStep(old(Abs()), StoreStop)
    {
      running := false;
      worker := Woke(worker);
      dtor := Waiting;
      hist := hist.(stopMark := Some(|hist.appended|));
    }

    method JoinWorker()
      requires OtherEnabled(Abs(), SeeStopped)
      modifies this
      ensures Abs() == OtherStep(old(Abs()), SeeStopped)
    {
      dtor := Joined;
    }

    /** The time is up: the destructor joins a worker that has stopped meanwhile and detaches any other. */
    method DetachWorker()
      requires OtherEnabled(Abs(), TimeOut)
      modifies this
      ensures Abs() == OtherStep(old(Abs()), TimeOut)
    {
      dtor := if stopped then Joined else Detached;
    }

    method GetDroppedCount() returns (d: nat)
      requires OtherEnabled(Abs(), TakeDropped)
      modifies this
      ensures d == old(dropped) && dropped == 0
      ensures Abs() == OtherStep(old(Abs()), TakeDropped)
    {
      d := dropped;
      HandleDrops();
    }

    // ---------- whole schedules ----------

    method Producing(p: nat, act: ProducerAct)
      requires ProducerEnabled(Abs(), p, act)
      modifies this
      ensures Abs() == ProducerStep(old(Abs()), p, act)
    {
      match act
      case Begin(msg) => Log(p, msg);
      case ReadSize => ReadQueueSize(p);
      case Recheck => RecheckAndAppend(p);
      case LoadMark => LoadHighWaterMark(p);
      case SwapMark => var ok := TrySwapMark(p, false);
      case RetryMark => var ok := TrySwapMark(p, true);
      case Unlock => UnlockQueue(p);
      case Signal => SendSignal(p);
    }

    method Working(act: WorkerAct)
      requires WorkerEnabled(Abs(), act)
      modifies this
      ensures Abs() == WorkerStep(old(Abs()), act)
    {
      match act
      case Test => TestAndSwap();
      case SpuriousWake => WakeSpuriously();
      case Rejoin => RejoinLoop();
      case DispatchOne => DispatchNext();
      case EndBatch => EndOfBatch();
      case FinalSwap => SwapFinally();
      case DrainOne => DrainNext();
      case EndDrain => EndOfDrain();
      case Stop => StoreStopped();
    }

    method Managing(act: OtherAct)
      requires OtherEnabled(Abs(), act)
      modifies this
      ensures Abs() == OtherStep(old(Abs()), act)
    {
      match act
      case StoreStop => StopUnderLock();
      case SeeStopped => JoinWorker();
      case TimeOut => DetachWorker();
      case TakeDropped => var _ := GetDroppedCount();
    }

    /** The object performs exactly the schedule it is given, and keeps the invariant. */
    method Perform(schedule: seq<Action>, ghost last: State)
      requires Inv(Abs()) && Runs(Abs(), schedule, last)
      modifies this
      ensures Abs() == last && Inv(Abs())
    {
      RunsKeepInv(Abs(), schedule, last);
      var i := 0;
      while i < |schedule|
        invariant 0 <= i <= |schedule| && Runs(Abs(), schedule[i..], last)
      {
        assert schedule[i..][0] == schedule[i] && schedule[i..][1..] == schedule[i + 1..];
        match schedule[i] {
          case Produce(p, act) => Producing(p, act);
          case Work(act) => Working(act);
          case Other(act) => Managing(act);
        }
        i := i + 1;
      }
    }
  }
}
