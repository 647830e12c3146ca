/** The task processor with its fields updated in place: one method for each atomic step of the
    submission path, the worker loop and the destructor.  Every method is tied to the step of the
    transition system that it performs, so everything proved there holds of runs of this object. */
module TaskProcessor {
  import opened Sums
  import opened PoolModel
  import PoolCounting
  import PoolTasks
  import PoolOrder

  /** The index of the first longest queue. */
  function DefaultStealPolicy(sizes: seq<nat>): (victim: nat)
    requires sizes != []
    ensures victim < |sizes|
    ensures forall i :: 0 <= i < |sizes| ==> sizes[i] <= sizes[victim]
    ensures forall i :: 0 <= i < victim ==> sizes[i] < sizes[victim]
  {
    var last := |sizes| - 1;
    if last == 0 then 0
    else
      var best := DefaultStealPolicy(sizes[..last]);
      if sizes[best] < sizes[last] then last else best
  }

  class TaskMultiProcessor {
    const cfg: Config
    var running: bool
    var stopped: bool
    var active: nat
    var queues: seq<seq<Item>>
    var qOwner: seq<Option<nat>>
    var mutex: Option<Thread>
    var counter: nat
    var dropped: nat
    var mark: nat
    var processed: nat
    var stolen: nat
    var rr: nat
    var promises: seq<Promise>
    var cancelled: set<nat>
    var producers: seq<SubmitPc>
    var workers: seq<WorkPc>
    var dtor: DtorPc
    var pushes: nat            // stamps the items; nothing else depends on it
    ghost var hist: History

    ghost function Abs(): State
      reads this
    {
      State(cfg,
            Memory(running, stopped, active, queues, qOwner, mutex,
                   counter, dropped, mark, processed, stolen, rr, promises, cancelled),
            producers, workers, dtor, hist)
    }

    ghost predicate Valid()
      reads this
    {
      Shape(Abs()) && pushes == |hist.pushLog|
    }

    constructor (cfg: Config)
      requires 0 < cfg.threads
      ensures Valid() && Abs() == Init(cfg)
    {
      this.cfg := cfg;
      running, stopped, active := true, false, cfg.threads;
      queues, qOwner, mutex := Fill(cfg.threads, []), Fill(cfg.threads, None), None;
      counter, dropped, mark, processed, stolen, rr := 0, 0, 0, 0, 0, 0;
      promises, cancelled := [], {};
      producers, workers, dtor := Fill(cfg.producers, Idle), Fill(cfg.threads, Top), Alive;
      pushes := 0;
      hist := Init(cfg).hist;
    }

    predicate TokenFired(kind: Kind)
      reads this
    {
      kind.WithResult? && kind.token.Some? && kind.token.value in cancelled
    }

    // ---------- SubmitWithResult and SubmitImpl ----------

    method Begin(p: nat, kind: Kind)
      requires Valid() && SubmitEnabled(Abs(), p, SubmitAct.Begin(kind))
      modifies this
      ensures Valid() && Abs() == SubmitStep(old(Abs()), p, SubmitAct.Begin(kind))
    {
      SubmitKeepsShape(Abs(), p, SubmitAct.Begin(kind));
      var task := Task(|promises|, kind);
      if TokenFired(kind) {
        promises := promises + [Cancelled];
        hist := hist.(refuseLog := hist.refuseLog + [task], fired := hist.fired + [task.id]);
      } else {
        promises := promises + [if kind.Plain? then NoFuture else Unset];
        producers := producers[p := Entered(task)];
      }
    }

    method CheckAdmission(p: nat)
      requires Valid() && SubmitEnabled(Abs(), p, Check)
      modifies this
      ensures Valid() && Abs() == SubmitStep(old(Abs()), p, Check)
    {
      SubmitKeepsShape(Abs(), p, Check);
      var task := producers[p].task;
      var curr := counter;
      if cfg.breaker && cfg.maxQueue != 0 && curr >= cfg.maxQueue {
        dropped := dropped + 1;
        producers := producers[p := Idle];
        hist := hist.(dropLog := hist.dropLog + [task]);
      } else {
        producers := producers[p := Admitted(task)];
      }
    }

    method DrawIndex(p: nat)
      requires Valid() && SubmitEnabled(Abs(), p, Draw)
      modifies this
      ensures Valid() && Abs() == SubmitStep(old(Abs()), p, Draw)
    {
      SubmitKeepsShape(Abs(), p, Draw);
      var task := producers[p].task;
      if cfg.mode.Fifo? {
        producers := producers[p := Drawn(task, 0)];
      } else {
        var q := rr % cfg.threads;
        rr := (rr + 1) % WORD;
        producers := producers[p := Drawn(task, q)];
        hist := hist.(draws := hist.draws + [q]);
      }
    }

    /** Locks the queue mutex and pushes; the mutex stays locked. */
    method PushLocked(p: nat)
      requires Valid() && SubmitEnabled(Abs(), p, Push)
      modifies this
      ensures Valid() && Abs() == SubmitStep(old(Abs()), p, Push)
    {
      SubmitKeepsShape(Abs(), p, Push);
      PushBack(p);
    }

    method PushBack(p: nat)
      requires Shape(Abs()) && pushes == |hist.pushLog| && p < |producers| && producers[p].Drawn?
      modifies this`queues, this`qOwner, this`pushes, this`hist, this`producers
      ensures Abs() == PushedBy(old(Abs()), p) && pushes == |hist.pushLog|
    {
      var task, q := producers[p].task, producers[p].q;
      var len := Append(p, q, task);
      producers := producers[p := Pushed(q, len)];
    }

    method Append(p: nat, q: nat, task: Task) returns (len: nat)
      requires q < |queues| && q < |qOwner|
      modifies this`queues, this`qOwner, this`pushes, this`hist
      ensures len == |old(queues)[q]| + 1
      ensures queues == old(queues)[q := old(queues)[q] + [Item(task, old(pushes))]]
      ensures qOwner == old(qOwner)[q := Some(p)] && pushes == old(pushes) + 1
      ensures hist == old(hist).(pushLog := old(hist).pushLog + [task], peak := PoolModel.Max(old(hist).peak, len))
    {
      queues := queues[q := queues[q] + [Item(task, pushes)]];
      qOwner := qOwner[q := Some(p)];
      pushes := pushes + 1;
      len := |queues[q]|;
      hist := hist.(pushLog := hist.pushLog + [task], peak := PoolModel.Max(hist.peak, len));
    }

    method LoadHighWaterMark(p: nat)
      requires Valid() && SubmitEnabled(Abs(), p, LoadMark)
      modifies this
      ensures Valid() && Abs() == SubmitStep(old(Abs()), p, LoadMark)
    {
      SubmitKeepsShape(Abs(), p, LoadMark);
      producers := producers[p := Swapping(producers[p].q, producers[p].len, mark)];
    }

    /** One turn of the compare-and-swap loop; the weak form may fail for no reason. */
    method TrySwapMark(p: nat, spurious: bool) returns (ok: bool)
      requires Valid() && SubmitEnabled(Abs(), p, RetryMark)
      modifies this
      ensures ok <==> !spurious && old(mark == producers[p].prev)
      ensures ok ==> old(SubmitEnabled(Abs(), p, SwapMark)) && Abs() == SubmitStep(old(Abs()), p, SwapMark)
      ensures !ok ==> Abs() == SubmitStep(old(Abs()), p, RetryMark)
      ensures Valid()
    {
      SubmitKeepsShape(Abs(), p, RetryMark);
      var pc := producers[p];
      ok := !spurious && mark == pc.prev;
      if ok {
        SubmitKeepsShape(Abs(), p, SwapMark);
        mark := pc.len;
        producers := producers[p := Swapping(pc.q, pc.len, pc.len)];
      } else {
        producers := producers[p := Swapping(pc.q, pc.len, mark)];
      }
    }

    method UnlockQueue(p: nat)
      requires Valid() && SubmitEnabled(Abs(), p, Unlock)
      modifies this
      ensures Valid() && Abs() == SubmitStep(old(Abs()), p, Unlock)
    {
      SubmitKeepsShape(Abs(), p, Unlock);
      qOwner := qOwner[producers[p].q := None];
      producers := producers[p := Uncounted];
    }

    method CountTask(p: nat)
      requires Valid() && SubmitEnabled(Abs(), p, Count)
      modifies this
      ensures Valid() && Abs() == SubmitStep(old(Abs()), p, Count)
    {
      SubmitKeepsShape(Abs(), p, Count);
      counter := (counter + 1) % WORD;
      producers := producers[p := Counted];
    }

    method LockForSignal(p: nat)
      requires Valid() && SubmitEnabled(Abs(), p, LockToSignal)
      modifies this
      ensures Valid() && Abs() == SubmitStep(old(Abs()), p, LockToSignal)
    {
      SubmitKeepsShape(Abs(), p, LockToSignal);
      mutex := Some(Producer(p));
      producers := producers[p := Signalling];
    }

    method SignalAllAndUnlock(p: nat)
      requires Valid() && SubmitEnabled(Abs(), p, SignalAll)
      modifies this
      ensures Valid() && Abs() == SubmitStep(old(Abs()), p, SignalAll)
    {
      SubmitKeepsShape(Abs(), p, SignalAll);
      mutex := None;
      producers := producers[p := Idle];
      workers := WakeAll(workers);
    }

    // ---------- ProcessLoop ----------

    method LoopTest(w: nat)
      requires Valid() && WorkEnabled(Abs(), w, Loop)
      modifies this
      ensures Valid() && Abs() == WorkStep(old(Abs()), w, Loop)
    {
      WorkKeepsShape(Abs(), w, Loop);
      workers := workers[w := if running then Wanting else Leaving];
    }

    method LockForTest(w: nat)
      requires Valid() && WorkEnabled(Abs(), w, LockToTest)
      modifies this
      ensures Valid() && Abs() == WorkStep(old(Abs()), w, LockToTest)
    {
      WorkKeepsShape(Abs(), w, LockToTest);
      mutex := Some(Worker(w));
      workers := workers[w := TestRunning];
    }

    method TestRunningFlag(w: nat)
      requires Valid() && WorkEnabled(Abs(), w, SeeRunning)
      modifies this
      ensures Valid() && Abs() == WorkStep(old(Abs()), w, SeeRunning)
    {
      WorkKeepsShape(Abs(), w, SeeRunning);
      if running {
        workers := workers[w := TestCount];
      } else {
        mutex := None;
        workers := workers[w := Owning];
      }
    }

    method TestCounter(w: nat)
      requires Valid() && WorkEnabled(Abs(), w, SeeCount)
      modifies this
      ensures Valid() && Abs() == WorkStep(old(Abs()), w, SeeCount)
    {
      WorkKeepsShape(Abs(), w, SeeCount);
      if counter == 0 {
        workers := workers[w := BeforeWait];
      } else {
        mutex := None;
        workers := workers[w := Owning];
      }
    }

    method WaitOnCv(w: nat)
      requires Valid() && WorkEnabled(Abs(), w, WorkAct.Wait)
      modifies this
      ensures Valid() && Abs() == WorkStep(old(Abs()), w, WorkAct.Wait)
    {
      WorkKeepsShape(Abs(), w, WorkAct.Wait);
      mutex := None;
      workers := workers[w := Asleep];
    }

    method WakeSpuriously(w: nat)
      requires Valid() && WorkEnabled(Abs(), w, SpuriousWake)
      modifies this
      ensures Valid() && Abs() == WorkStep(old(Abs()), w, SpuriousWake)
    {
      WorkKeepsShape(Abs(), w, SpuriousWake);
      workers := workers[w := Woken];
    }

    method PopOwnQueue(w: nat)
      requires Valid() && WorkEnabled(Abs(), w, PopOwn)
      modifies this
      ensures Valid() && Abs() == WorkStep(old(Abs()), w, PopOwn)
    {
      WorkKeepsShape(Abs(), w, PopOwn);
      if queues[w] != [] {
        var item := queues[w][0];
        queues := queues[w := queues[w][1..]];
        workers := workers[w := Got(item.task)];
        RecordPop(w, w, item, false);
      } else {
        workers := workers[w := if cfg.mode.WorkStealing? then Stealing else Dropping];
      }
    }

    method StealTask(w: nat, victim: nat)
      requires Valid() && WorkEnabled(Abs(), w, Steal(victim))
      modifies this
      ensures Valid() && Abs() == WorkStep(old(Abs()), w, Steal(victim))
    {
      WorkKeepsShape(Abs(), w, Steal(victim));
      if queues[victim] != [] {
        TakeBack(w, victim);
      } else {
        workers := workers[w := Dropping];
      }
    }

    /** Takes the newest task of the victim's queue and counts the theft. */
    method TakeBack(w: nat, victim: nat)
      requires Shape(Abs()) && victim < |queues| && queues[victim] != [] && w < |workers|
      modifies this`queues, this`stolen, this`workers, this`hist
      ensures Abs() == Taken(old(Abs()), w, victim, true)
    {
      var dq := queues[victim];
      var item := dq[|dq| - 1];
      RecordPop(w, victim, item, true);
      queues := queues[victim := dq[..|dq| - 1]];
      stolen := stolen + 1;
      workers := workers[w := Got(item.task)];
    }

    ghost method RecordPop(w: nat, q: nat, item: Item, back: bool)
      requires w < |hist.latePops|
      modifies this`hist
      ensures hist == old(hist).(
                popLog := old(hist).popLog + [Pop(w, q, item, back)],
                latePops := if running then old(hist).latePops
                            else old(hist).latePops[w := old(hist).latePops[w] + 1])
    {
      hist := hist.(popLog := hist.popLog + [Pop(w, q, item, back)],
                    latePops := if running then hist.latePops else hist.latePops[w := hist.latePops[w] + 1]);
    }

    method DiscountTask(w: nat)
      requires Valid() && WorkEnabled(Abs(), w, Discount)
      modifies this
      ensures Valid() && Abs() == WorkStep(old(Abs()), w, Discount)
    {
      WorkKeepsShape(Abs(), w, Discount);
      counter := if counter == 0 then WORD - 1 else (counter - 1) % WORD;
      workers := workers[w := Discounted(workers[w].task)];
    }

    method TallyProcessed(w: nat)
      requires Valid() && WorkEnabled(Abs(), w, Tally)
      modifies this
      ensures Valid() && Abs() == WorkStep(old(Abs()), w, Tally)
    {
      WorkKeepsShape(Abs(), w, Tally);
      processed := processed + 1;
      workers := workers[w := Calling(workers[w].task)];
    }

    method CallGlobalCallbacks(w: nat)
      requires Valid() && WorkEnabled(Abs(), w, Call)
      modifies this
      ensures Valid() && Abs() == WorkStep(old(Abs()), w, Call)
    {
      WorkKeepsShape(Abs(), w, Call);
      hist := hist.(callLog := hist.callLog + [workers[w].task]);
      workers := workers[w := Wrapping(workers[w].task)];
    }

    /** Runs the task's wrapper up to fn: nothing for a plain task, cancellation for a fired token. */
    method RunWrapper(w: nat)
      requires Valid() && WorkEnabled(Abs(), w, Wrap)
      modifies this
      ensures Valid() && Abs() == WorkStep(old(Abs()), w, Wrap)
    {
      WorkKeepsShape(Abs(), w, Wrap);
      CheckToken(w);
    }

    method CheckToken(w: nat)
      requires w < |workers| && workers[w].Wrapping?
      modifies this`workers, this`promises, this`hist
      ensures Abs() == Wrapped(old(Abs()), w) && hist.pushLog == old(hist.pushLog)
    {
      var task := workers[w].task;
      if task.kind.WithResult? && !TokenFired(task.kind) {
        workers := workers[w := Executing(task)];
        hist := hist.(ran := hist.ran + [task.id]);
      } else {
        Retire(w, task, task.kind.WithResult?, Cancelled);
      }
    }

    /** The worker is done with its task, and resolves its promise if it has one to resolve. */
    method Retire(w: nat, task: Task, resolves: bool, outcome: Promise)
      requires w < |workers|
      modifies this`workers, this`promises, this`hist
      ensures workers == old(workers)[w := Dropping]
      ensures promises == if resolves then Resolved(old(promises), task.id, outcome) else old(promises)
      ensures hist == old(hist).(doneLog := old(hist).doneLog + [task],
                                 fired := if resolves && outcome.Cancelled? then old(hist).fired + [task.id]
                                          else old(hist).fired)
    {
      if resolves && task.id < |promises| && promises[task.id].Unset? {
        promises := promises[task.id := outcome];
      }
      workers := workers[w := Dropping];
      hist := hist.(doneLog := hist.doneLog + [task],
                    fired := if resolves && outcome.Cancelled? then hist.fired + [task.id] else hist.fired);
    }

    /** Setting a promise; it has no effect if the promise has been resolved before. */
    ghost function Resolved(before: seq<Promise>, id: nat, outcome: Promise): seq<Promise> {
      if id < |before| && before[id].Unset? then before[id := outcome] else before
    }

    method FinishFn(w: nat, returned: bool)
      requires Valid() && WorkEnabled(Abs(), w, Finish(returned))
      modifies this
      ensures Valid() && Abs() == WorkStep(old(Abs()), w, Finish(returned))
    {
      WorkKeepsShape(Abs(), w, Finish(returned));
      var task := workers[w].task;
      hide Shape, WorkEnabled;
      Retire(w, task, true, if returned then Value else Failed);
    }

    method HandleDrops(w: nat)
      requires Valid() && WorkEnabled(Abs(), w, ReportDrops)
      modifies this
      ensures Valid() && Abs() == WorkStep(old(Abs()), w, ReportDrops)
    {
      WorkKeepsShape(Abs(), w, ReportDrops);
      hist := hist.(reported := hist.reported + dropped);
      dropped := 0;
      workers := workers[w := Top];
    }

    method LeaveLoop(w: nat)
      requires Valid() && WorkEnabled(Abs(), w, Leave)
      modifies this
      ensures Valid() && Abs() == WorkStep(old(Abs()), w, Leave)
    {
      WorkKeepsShape(Abs(), w, Leave);
      active := if active > 0 then active - 1 else WORD - 1;
      stopped := true;
      workers := workers[w := Gone];
    }

    // ---------- the destructor and the users of the processor ----------

    method StoreStop()
      requires Valid() && OtherEnabled(Abs(), StopStore)
      modifies this
      ensures Valid() && Abs() == OtherStep(old(Abs()), StopStore)
    {
      OtherKeepsShape(Abs(), StopStore);
      running := false;
      dtor := Stopping;
    }

    method SignalStop()
      requires Valid() && OtherEnabled(Abs(), StopSignal)
      modifies this
      ensures Valid() && Abs() == OtherStep(old(Abs()), StopSignal)
    {
      OtherKeepsShape(Abs(), StopSignal);
      workers := WakeAll(workers);
      dtor := Signalled;
    }

    method JoinWorkers()
      requires Valid() && OtherEnabled(Abs(), StopJoin)
      modifies this
      ensures Valid() && Abs() == OtherStep(old(Abs()), StopJoin)
    {
      OtherKeepsShape(Abs(), StopJoin);
      dtor := Joined;
    }

    method RunFinalCallback()
      requires Valid() && OtherEnabled(Abs(), StopFinal)
      modifies this
      ensures Valid() && Abs() == OtherStep(old(Abs()), StopFinal)
    {
      OtherKeepsShape(Abs(), StopFinal);
      stopped := true;
      dtor := Destroyed;
    }

    method StoreToken(token: nat, on: bool)
      requires Valid() && OtherEnabled(Abs(), SetToken(token, on))
      modifies this
      ensures Valid() && Abs() == OtherStep(old(Abs()), SetToken(token, on))
    {
      OtherKeepsShape(Abs(), SetToken(token, on));
      cancelled := if on then cancelled + {token} else cancelled - {token};
    }

    method GetDroppedCount() returns (d: nat)
      requires Valid() && OtherEnabled(Abs(), TakeDropped)
      modifies this
      ensures d == old(dropped) && dropped == 0
      ensures Valid() && Abs() == OtherStep(old(Abs()), TakeDropped)
    {
      OtherKeepsShape(Abs(), TakeDropped);
      d := dropped;
      hist := hist.(reported := hist.reported + dropped);
      dropped := 0;
    }

    // ---------- whole schedules ----------

    method Submission(p: nat, act: SubmitAct)
      requires Valid() && SubmitEnabled(Abs(), p, act)
      modifies this
      ensures Valid() && Abs() == SubmitStep(old(Abs()), p, act)
    {
      match act
      case Begin(kind) => Begin(p, kind);
      case Check => CheckAdmission(p);
      case Draw => DrawIndex(p);
      case Push => PushLocked(p);
      case LoadMark => LoadHighWaterMark(p);
      case SwapMark => var ok := TrySwapMark(p, false);
      case RetryMark => var ok := TrySwapMark(p, true);
      case Unlock => UnlockQueue(p);
      case Count => CountTask(p);
      case LockToSignal => LockForSignal(p);
      case SignalAll => SignalAllAndUnlock(p);
    }

    method Working(w: nat, act: WorkAct)
      requires Valid() && WorkEnabled(Abs(), w, act)
      modifies this
      ensures Valid() && Abs() == WorkStep(old(Abs()), w, act)
    {
      match act
      case Loop => LoopTest(w);
      case LockToTest => LockForTest(w);
      case SeeRunning => TestRunningFlag(w);
      case SeeCount => TestCounter(w);
      case Wait => WaitOnCv(w);
      case SpuriousWake => WakeSpuriously(w);
      case PopOwn => PopOwnQueue(w);
      case Steal(victim) => StealTask(w, victim);
      case Discount => DiscountTask(w);
      case Tally => TallyProcessed(w);
      case Call => CallGlobalCallbacks(w);
      case Wrap => RunWrapper(w);
      case Finish(returned) => FinishFn(w, returned);
      case ReportDrops => HandleDrops(w);
      case Leave => LeaveLoop(w);
    }

    method Other(act: OtherAct)
      requires Valid() && OtherEnabled(Abs(), act)
      modifies this
      ensures Valid() && Abs() == OtherStep(old(Abs()), act)
    {
      match act
      case StopStore => StoreStop();
      case StopSignal => SignalStop();
      case StopJoin => JoinWorkers();
      case StopFinal => RunFinalCallback();
      case SetToken(token, on) => StoreToken(token, on);
      case TakeDropped => var _ := GetDroppedCount();
    }

    method Act(a: Action)
      requires Valid() && Enabled(Abs(), a)
      modifies this
      ensures Valid() && Abs() == Step(old(Abs()), a)
    {
      match a
      case Submit(p, act) => Submission(p, act);
      case Work(w, act) => Working(w, act);
      case Other(act) => Other(act);
    }

    /** The object performs exactly the schedule it is given, and keeps every global invariant. */
    method Perform(schedule: seq<Action>, ghost last: State)
      requires Valid() && Runs(Abs(), schedule, last)
      requires PoolCounting.Inv(Abs()) && PoolTasks.Inv(Abs()) && PoolOrder.Inv(Abs())
      modifies this
      ensures Valid() && Abs() == last
      ensures PoolCounting.Inv(Abs()) && PoolTasks.Inv(Abs()) && PoolOrder.Inv(Abs())
    {
      PoolCounting.RunsKeepInv(Abs(), schedule, last);
      PoolTasks.RunsKeepInv(Abs(), schedule, last);
      PoolOrder.RunsKeepInv(Abs(), schedule, last);
      var i := 0;
      while i < |schedule|
        invariant 0 <= i <= |schedule| && Valid() && Runs(Abs(), schedule[i..], last)
      {
        assert schedule[i..][0] == schedule[i] && schedule[i..][1..] == schedule[i + 1..];
        Act(schedule[i]);
        i := i + 1;
      }
    }
  }
}
