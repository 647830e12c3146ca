/** In what order tasks leave the queues, and what the high-water mark means. */
module PoolOrder {
  import opened Sums
  import opened PoolModel
  import PoolCounting
  import PoolTasks

  // ---------- push order within each queue ----------

  ghost predicate Sorted(q: seq<Item>) { forall i, j :: 0 <= i < j < |q| ==> q[i].stamp < q[j].stamp }

  ghost predicate Stamped(x: Item, log: seq<Task>) { x.stamp < |log| && log[x.stamp] == x.task }

  ghost predicate OlderThanAll(x: Item, q: seq<Item>) { forall i :: 0 <= i < |q| ==> x.stamp < q[i].stamp }

  /** Each queue lists its items in push order. */
  ghost predicate QueuesOrdered(s: State) {
    forall q {:trigger s.mem.queues[q]} :: 0 <= q < |s.mem.queues| ==>
      && Sorted(s.mem.queues[q])
      && forall i :: 0 <= i < |s.mem.queues[q]| ==> Stamped(s.mem.queues[q][i], s.hist.pushLog)
  }

  /** Whatever the owner took from the front is older than all that is still there. */
  ghost predicate FrontsFirst(s: State) {
    forall k {:trigger s.hist.popLog[k]} :: 0 <= k < |s.hist.popLog| ==>
      && var pop := s.hist.popLog[k];
      && pop.q < |s.mem.queues| && Stamped(pop.item, s.hist.pushLog)
      && (!pop.back ==> OlderThanAll(pop.item, s.mem.queues[pop.q]))
  }

  /** Every later pop of the same queue, from either end, takes something newer than a front pop. */
  ghost predicate PopsOrdered(log: seq<Pop>) {
    forall k, l :: 0 <= k < l < |log| && log[k].q == log[l].q && !log[k].back ==>
      log[k].item.stamp < log[l].item.stamp
  }

  ghost function BackW(pop: Pop): nat { if pop.back then 1 else 0 }

  ghost predicate OrderInv(s: State) {
    && Shape(s) && QueuesOrdered(s) && FrontsFirst(s) && PopsOrdered(s.hist.popLog)
    && s.mem.stolen == Sum(BackW, s.hist.popLog)
  }

  lemma PushKeepsOrder(s: State, p: nat)
    requires OrderInv(s) && SubmitEnabled(s, p, Push)
    ensures OrderInv(PushedBy(s, p))
  {
    SubmitKeepsShape(s, p, Push);
    var t := PushedBy(s, p);
    var q := s.producers[p].q;
    assert forall i :: 0 <= i < |s.mem.queues[q]| ==> t.mem.queues[q][i] == s.mem.queues[q][i];
    forall k | 0 <= k < |s.hist.popLog|
      ensures var pop := s.hist.popLog[k];
        Stamped(pop.item, t.hist.pushLog) && (!pop.back ==> OlderThanAll(pop.item, t.mem.queues[pop.q]))
    {
      var pop := s.hist.popLog[k];
    }
  }

  ghost predicate AllStamped(q: seq<Item>, log: seq<Task>) { forall i :: 0 <= i < |q| ==> Stamped(q[i], log) }

  lemma RestKeepsOrder(dq: seq<Item>, back: bool, log: seq<Task>)
    requires dq != [] && Sorted(dq) && AllStamped(dq, log)
    ensures Sorted(RestOf(dq, back)) && AllStamped(RestOf(dq, back), log)
    ensures !back ==> OlderThanAll(dq[0], RestOf(dq, back))
  {
  }

  lemma PopsOrderedSnoc(log: seq<Pop>, pop: Pop)
    requires PopsOrdered(log)
    requires forall k :: 0 <= k < |log| && log[k].q == pop.q && !log[k].back ==> log[k].item.stamp < pop.item.stamp
    ensures PopsOrdered(log + [pop])
  {
  }

  lemma RestsOrdered(s: State, t: State, q: nat, back: bool)
    requires QueuesOrdered(s) && q < |s.mem.queues| && s.mem.queues[q] != [] && t.hist.pushLog == s.hist.pushLog
    requires t.mem.queues == s.mem.queues[q := RestOf(s.mem.queues[q], back)]
    ensures QueuesOrdered(t)
  {
    assert AllStamped(s.mem.queues[q], s.hist.pushLog);
    RestKeepsOrder(s.mem.queues[q], back, s.hist.pushLog);
    hide Sorted, Stamped, RestOf;
    forall r | 0 <= r < |t.mem.queues|
      ensures Sorted(t.mem.queues[r]) && AllStamped(t.mem.queues[r], t.hist.pushLog)
    {
      if r != q {
        assert t.mem.queues[r] == s.mem.queues[r];
      }
    }
  }

  lemma PopKeepsOrder(s: State, w: nat, q: nat, back: bool)
    requires OrderInv(s) && w < |s.workers| && q < |s.mem.queues| && s.mem.queues[q] != []
    ensures OrderInv(Taken(s, w, q, back))
  {
    var t := Taken(s, w, q, back);
    var dq, pop := s.mem.queues[q], PopOf(s, w, q, back);
    TakenChanges(s, w, q, back);
    hide Taken, Shape, RestOf;
    RestsOrdered(s, t, q, back);
    RestKeepsOrder(dq, back, s.hist.pushLog);
    assert forall k :: 0 <= k < |s.hist.popLog| && s.hist.popLog[k].q == q && !s.hist.popLog[k].back ==>
                         OlderThanAll(s.hist.popLog[k].item, dq);
    PopsOrderedSnoc(s.hist.popLog, pop);
    FrontsStayFirst(s, t, q, back, pop);
    SumSnoc(BackW, s.hist.popLog, pop);
  }

  lemma FrontsStayFirst(s: State, t: State, q: nat, back: bool, pop: Pop)
    requires FrontsFirst(s) && q < |s.mem.queues| && s.mem.queues[q] != [] && t.hist.pushLog == s.hist.pushLog
    requires t.mem.queues == s.mem.queues[q := RestOf(s.mem.queues[q], back)]
    requires t.hist.popLog == s.hist.popLog + [pop] && pop.q == q && pop.back == back
    requires Stamped(pop.item, s.hist.pushLog) && (!back ==> OlderThanAll(pop.item, RestOf(s.mem.queues[q], back)))
    ensures FrontsFirst(t)
  {
    hide Stamped;
    forall k | 0 <= k < |s.hist.popLog|
      ensures var x := s.hist.popLog[k];
        x.q < |t.mem.queues| && Stamped(x.item, t.hist.pushLog) && (!x.back ==> OlderThanAll(x.item, t.mem.queues[x.q]))
    {
      var x := s.hist.popLog[k];
      assert !x.back ==> OlderThanAll(x.item, s.mem.queues[x.q]);
    }
  }

  ghost predicate SameQueues(s: State, t: State) {
    && t.cfg == s.cfg && t.mem.queues == s.mem.queues && t.mem.stolen == s.mem.stolen
    && t.hist.pushLog == s.hist.pushLog && t.hist.popLog == s.hist.popLog && t.hist.peak == s.hist.peak
  }

  /** Only a push and a pop touch the queues. */
  lemma SubmitTouches(s: State, p: nat, act: SubmitAct)
    requires Shape(s) && SubmitEnabled(s, p, act)
    ensures if act.Push? then SubmitStep(s, p, act) == PushedBy(s, p) else SameQueues(s, SubmitStep(s, p, act))
  {
  }

  lemma WorkTouches(s: State, w: nat, act: WorkAct)
    requires Shape(s) && WorkEnabled(s, w, act)
    ensures var t := WorkStep(s, w, act);
      && t.producers == s.producers
      && if act.PopOwn? && s.mem.queues[w] != [] then t == Taken(s, w, w, false)
         else if act.Steal? && s.mem.queues[act.victim] != [] then t == Taken(s, w, act.victim, true)
         else SameQueues(s, t) && t.mem.mark == s.mem.mark && t.mem.qOwner == s.mem.qOwner
  {
  }

  lemma StepKeepsOrder(s: State, a: Action)
    requires OrderInv(s) && Enabled(s, a)
    ensures OrderInv(Step(s, a))
  {
    hide SubmitStep, WorkStep;
    match a
    case Submit(p, act) =>
      SubmitKeepsShape(s, p, act);
      SubmitTouches(s, p, act);
      if act.Push? {
        PushKeepsOrder(s, p);
      }
    case Work(w, act) =>
      WorkKeepsShape(s, w, act);
      WorkTouches(s, w, act);
      if act.PopOwn? && s.mem.queues[w] != [] {
        PopKeepsOrder(s, w, w, false);
      } else if act.Steal? && s.mem.queues[act.victim] != [] {
        PopKeepsOrder(s, w, act.victim, true);
      }
    case Other(act) =>
      OtherKeepsShape(s, act);
  }

  // ---------- FIFO mode ----------

  ghost function PopTasks(log: seq<Pop>): (r: seq<Task>)
    ensures |r| == |log| && forall i :: 0 <= i < |log| ==> r[i] == log[i].item.task
  {
    seq(|log|, i requires 0 <= i < |log| => log[i].item.task)
  }

  ghost function ItemTasks(q: seq<Item>): (r: seq<Task>)
    ensures |r| == |q| && forall i :: 0 <= i < |q| ==> r[i] == q[i].task
  {
    seq(|q|, i requires 0 <= i < |q| => q[i].task)
  }

  /** The task worker 0 has popped but not yet shown to the global callbacks. */
  ghost function Uncalled(pc: WorkPc): seq<Task> {
    if pc.Got? || pc.Discounted? || pc.Calling? then [pc.task] else []
  }

  /** Everything happens on queue 0, and only worker 0 ever has a task. */
  ghost predicate QueueZeroOnly(s: State) {
    && (forall q :: 0 < q < |s.mem.queues| ==> s.mem.queues[q] == [])
    && (forall p :: 0 <= p < |s.producers| ==>
          (s.producers[p].Drawn? ==> s.producers[p].q == 0))
    && (forall w :: 0 <= w < |s.workers| ==>
          !s.workers[w].Stealing? && (PoolTasks.InHand(s.workers[w]) ==> w == 0))
    && (forall k :: 0 <= k < |s.hist.popLog| ==> s.hist.popLog[k].worker == 0)
  }

  /** Popped, then queued: the push order.  Called back, then about to be: the pop order. */
  ghost predicate ArrivalOrder(s: State)
    requires Shape(s)
  {
    && PopTasks(s.hist.popLog) + ItemTasks(s.mem.queues[0]) == s.hist.pushLog
    && s.hist.callLog + Uncalled(s.workers[0]) == PopTasks(s.hist.popLog)
  }

  ghost predicate FifoInv(s: State)
    requires Shape(s)
  {
    s.cfg.mode.Fifo? ==> QueueZeroOnly(s) && ArrivalOrder(s)
  }

  lemma PushKeepsFifo(s: State, p: nat)
    requires Shape(s) && FifoInv(s) && SubmitEnabled(s, p, Push)
    ensures Shape(PushedBy(s, p)) && FifoInv(PushedBy(s, p))
  {
    SubmitKeepsShape(s, p, Push);
    if s.cfg.mode.Fifo? {
      var t := PushedBy(s, p);
      assert ItemTasks(t.mem.queues[0]) == ItemTasks(s.mem.queues[0]) + [s.producers[p].task];
    }
  }

  lemma PopTasksSnoc(log: seq<Pop>, pop: Pop)
    ensures PopTasks(log + [pop]) == PopTasks(log) + [pop.item.task]
  {
  }

  lemma ItemTasksHead(q: seq<Item>)
    requires q != []
    ensures ItemTasks(q) == [q[0].task] + ItemTasks(q[1..])
  {
  }

  lemma Regroup(a: seq<Task>, x: Task, b: seq<Task>)
    ensures (a + [x]) + b == a + ([x] + b)
  {
  }

  lemma PopKeepsArrivalOrder(s: State)
    requires Shape(s) && ArrivalOrder(s) && !PoolTasks.InHand(s.workers[0]) && s.mem.queues[0] != []
    ensures var t := Taken(s, 0, 0, false); Shape(t) && ArrivalOrder(t)
  {
    var t := Taken(s, 0, 0, false);
    var dq := s.mem.queues[0];
    var popped := PopTasks(s.hist.popLog);
    assert t.mem.queues[0] == dq[1..] && t.hist.popLog == s.hist.popLog + [Pop(0, 0, dq[0], false)];
    assert Uncalled(t.workers[0]) == [dq[0].task] && Uncalled(s.workers[0]) == [];
    assert s.hist.callLog + [] == s.hist.callLog && t.hist.callLog == s.hist.callLog;
    assert t.hist.pushLog == s.hist.pushLog && Shape(t);
    hide Taken, PopTasks, ItemTasks, Uncalled, Shape;
    PopTasksSnoc(s.hist.popLog, Pop(0, 0, dq[0], false));
    ItemTasksHead(dq);
    Regroup(popped, dq[0].task, ItemTasks(dq[1..]));
  }

  lemma PopKeepsFifo(s: State, w: nat)
    requires Shape(s) && FifoInv(s) && WorkEnabled(s, w, PopOwn) && s.mem.queues[w] != []
    ensures Shape(Taken(s, w, w, false)) && FifoInv(Taken(s, w, w, false))
  {
    WorkKeepsShape(s, w, PopOwn);
    if s.cfg.mode.Fifo? {
      PopKeepsArrivalOrder(s);
    }
  }

  lemma SubmitKeepsFifo(s: State, p: nat, act: SubmitAct)
    requires Shape(s) && FifoInv(s) && SubmitEnabled(s, p, act)
    ensures Shape(SubmitStep(s, p, act)) && FifoInv(SubmitStep(s, p, act))
  {
    SubmitKeepsShape(s, p, act);
    if act.Push? {
      PushKeepsFifo(s, p);
    }
  }

  lemma WorkKeepsFifo(s: State, w: nat, act: WorkAct)
    requires Shape(s) && FifoInv(s) && WorkEnabled(s, w, act)
    ensures Shape(WorkStep(s, w, act)) && FifoInv(WorkStep(s, w, act))
  {
    WorkKeepsShape(s, w, act);
    hide WorkStep;
    if act.Wrap? || act.Finish? {
      PoolTasks.WorkWraps(s, w, act);
    } else {
      PoolTasks.WorkPassesOn(s, w, act);
      if WorkStep(s, w, act).workers[w].Got? && s.cfg.mode.Fifo? {
        PopKeepsFifo(s, w);
      }
    }
  }

  // ---------- the high-water mark ----------

  /** A producer in its critical section knows the length of its queue and has a stale mark at most. */
  ghost predicate MarkerKnows(s: State, pc: SubmitPc) {
    && (PoolCounting.Holds(pc) ==> pc.q < |s.mem.queues| && pc.len == |s.mem.queues[pc.q]|)
    && (pc.Swapping? ==> pc.prev <= s.mem.mark)
  }

  ghost predicate MarkInv(s: State)
    requires Shape(s)
  {
    && s.mem.mark <= s.hist.peak
    && (forall q :: 0 <= q < |s.mem.queues| ==> |s.mem.queues[q]| <= s.hist.peak)
    && (forall q :: 0 <= q < |s.mem.queues| && s.mem.qOwner[q].None? ==> |s.mem.queues[q]| <= s.mem.mark)
    && (forall p {:trigger s.producers[p]} :: 0 <= p < |s.producers| ==> MarkerKnows(s, s.producers[p]))
    && (s.hist.peak <= s.mem.mark
        || exists p :: 0 <= p < |s.producers| && PoolCounting.Holds(s.producers[p]) && s.producers[p].len == s.hist.peak)
  }

  lemma PushKeepsMark(s: State, p: nat)
    requires Shape(s) && PoolCounting.QueueLocks(s) && MarkInv(s) && SubmitEnabled(s, p, Push)
    ensures Shape(PushedBy(s, p)) && MarkInv(PushedBy(s, p))
  {
    SubmitKeepsShape(s, p, Push);
    var t := PushedBy(s, p);
    if s.hist.peak <= t.producers[p].len {
      assert PoolCounting.Holds(t.producers[p]) && t.producers[p].len == t.hist.peak;
    } else if s.mem.mark < s.hist.peak {
      var p' :| 0 <= p' < |s.producers| && PoolCounting.Holds(s.producers[p']) && s.producers[p'].len == s.hist.peak;
      assert t.producers[p'] == s.producers[p'];
    }
  }

  /** The steps of the compare-and-swap loop. */
  lemma SwapKeepsMark(s: State, p: nat, act: SubmitAct)
    requires Shape(s) && PoolCounting.QueueLocks(s) && MarkInv(s) && SubmitEnabled(s, p, act)
    requires act.LoadMark? || act.SwapMark? || act.RetryMark? || act.Unlock?
    ensures var t := SubmitStep(s, p, act); Shape(t) && MarkInv(t) && s.mem.mark <= t.mem.mark
  {
    SubmitKeepsShape(s, p, act);
    var t := SubmitStep(s, p, act);
    if s.mem.mark < s.hist.peak {
      var p' :| 0 <= p' < |s.producers| && PoolCounting.Holds(s.producers[p']) && s.producers[p'].len == s.hist.peak;
      assert t.producers[p'] == s.producers[p'] || p' == p;
      assert PoolCounting.Holds(t.producers[p']) || s.hist.peak <= t.mem.mark;
    }
  }

  lemma SubmitKeepsMark(s: State, p: nat, act: SubmitAct)
    requires Shape(s) && PoolCounting.QueueLocks(s) && MarkInv(s) && SubmitEnabled(s, p, act)
    ensures var t := SubmitStep(s, p, act); Shape(t) && MarkInv(t) && s.mem.mark <= t.mem.mark
  {
    if act.Push? {
      PushKeepsMark(s, p);
    } else if act.LoadMark? || act.SwapMark? || act.RetryMark? || act.Unlock? {
      SwapKeepsMark(s, p, act);
    } else {
      SubmitKeepsShape(s, p, act);
      SubmitAvoidsMark(s, p, act);
      hide SubmitStep;
      var t := SubmitStep(s, p, act);
      if s.mem.mark < s.hist.peak {
        var p' :| 0 <= p' < |s.producers| && PoolCounting.Holds(s.producers[p']) && s.producers[p'].len == s.hist.peak;
        assert t.producers[p'] == s.producers[p'];
      }
    }
  }

  lemma SubmitAvoidsMark(s: State, p: nat, act: SubmitAct)
    requires Shape(s) && SubmitEnabled(s, p, act)
    requires !act.Push? && !act.LoadMark? && !act.SwapMark? && !act.RetryMark? && !act.Unlock?
    ensures var t := SubmitStep(s, p, act);
      && SameQueues(s, t) && t.mem.mark == s.mem.mark && t.mem.qOwner == s.mem.qOwner
      && t.producers == s.producers[p := t.producers[p]]
      && !PoolCounting.Holds(s.producers[p]) && !PoolCounting.Holds(t.producers[p])
  {
  }

  /** Workers only shorten queues whose mutex nobody holds. */
  lemma PopKeepsMark(s: State, w: nat, q: nat, back: bool)
    requires Shape(s) && PoolCounting.QueueLocks(s) && MarkInv(s)
    requires w < |s.workers| && q < |s.mem.queues| && s.mem.queues[q] != [] && s.mem.qOwner[q].None?
    ensures var t := Taken(s, w, q, back); Shape(t) && MarkInv(t)
  {
    var t := Taken(s, w, q, back);
    assert t.producers == s.producers;
  }

  lemma WorkKeepsMark(s: State, w: nat, act: WorkAct)
    requires Shape(s) && PoolCounting.QueueLocks(s) && MarkInv(s) && WorkEnabled(s, w, act)
    ensures var t := WorkStep(s, w, act); Shape(t) && MarkInv(t) && s.mem.mark == t.mem.mark
  {
    WorkKeepsShape(s, w, act);
    WorkTouches(s, w, act);
    hide WorkStep;
    if act.PopOwn? && s.mem.queues[w] != [] {
      PopKeepsMark(s, w, w, false);
    } else if act.Steal? && s.mem.queues[act.victim] != [] {
      PopKeepsMark(s, w, act.victim, true);
    }
  }

  // ---------- every reachable state ----------

  ghost predicate Inv(s: State) {
    OrderInv(s) && FifoInv(s) && MarkInv(s) && PoolCounting.QueueLocks(s)
  }

  lemma StepKeepsInv(s: State, a: Action)
    requires Inv(s) && Enabled(s, a)
    ensures Inv(Step(s, a)) && s.mem.mark <= Step(s, a).mem.mark
  {
    StepKeepsOrder(s, a);
    hide SubmitStep, WorkStep, OrderInv, MarkInv, FifoInv;
    match a
    case Submit(p, act) =>
      SubmitKeepsShape(s, p, act);
      SubmitKeepsFifo(s, p, act);
      SubmitKeepsMark(s, p, act);
      PoolCounting.SubmitKeepsQueueLocks(s, p, act);
    case Work(w, act) =>
      WorkKeepsShape(s, w, act);
      WorkKeepsFifo(s, w, act);
      WorkKeepsMark(s, w, act);
      PoolCounting.WorkKeepsQueueLocks(s, w, act);
    case Other(act) =>
      OtherKeepsOrderly(s, act);
      PoolCounting.OtherKeepsQueueLocks(s, act);
  }

  lemma OtherKeepsOrderly(s: State, act: OtherAct)
    requires Shape(s) && OtherEnabled(s, act) && FifoInv(s) && MarkInv(s)
    ensures var t := OtherStep(s, act); Shape(t) && FifoInv(t) && MarkInv(t) && t.mem.mark == s.mem.mark
  {
    OtherKeepsShape(s, act);
    var t := OtherStep(s, act);
    assert t.producers == s.producers;
    assert Uncalled(t.workers[0]) == Uncalled(s.workers[0]);
  }

  lemma InitOrder(cfg: Config)
    requires 0 < cfg.threads
    ensures OrderInv(Init(cfg)) && PoolCounting.QueueLocks(Init(cfg))
  {
  }

  lemma InitMark(cfg: Config)
    requires 0 < cfg.threads
    ensures MarkInv(Init(cfg))
  {
  }

  lemma InitFifo(cfg: Config)
    requires 0 < cfg.threads
    ensures FifoInv(Init(cfg))
  {
    var s := Init(cfg);
    assert PopTasks(s.hist.popLog) == [] && ItemTasks(s.mem.queues[0]) == [] && Uncalled(s.workers[0]) == [];
    assert ArrivalOrder(s);
  }

  lemma InitInv(cfg: Config)
    requires 0 < cfg.threads
    ensures Inv(Init(cfg))
  {
    hide OrderInv, MarkInv, FifoInv, PoolCounting.QueueLocks;
    InitOrder(cfg);
    InitMark(cfg);
    InitFifo(cfg);
  }

  lemma {:induction false} RunsKeepInv(s: State, acts: seq<Action>, t: State)
    requires Inv(s) && Runs(s, acts, t)
    ensures Inv(t) && s.mem.mark <= t.mem.mark
    decreases |acts|
  {
    if acts != [] {
      StepKeepsInv(s, acts[0]);
      RunsKeepInv(Step(s, acts[0]), acts[1..], t);
    }
  }

  lemma ReachableInv(s: State)
    requires Reachable(s)
    ensures Inv(s)
  {
    InitInv(s.cfg);
    var acts :| Runs(Init(s.cfg), acts, s);
    RunsKeepInv(Init(s.cfg), acts, s);
  }

  // ---------- main results ----------

  /** In FIFO mode, with any number of threads, worker 0 pops everything, and the global callbacks
      see the tasks in exactly the order in which they were pushed. */
  lemma FifoOrder(s: State)
    requires Reachable(s) && s.cfg.mode.Fifo?
    ensures forall k :: 0 <= k < |s.hist.popLog| ==> s.hist.popLog[k].worker == 0
    ensures Shape(s) && PopTasks(s.hist.popLog) + ItemTasks(s.mem.queues[0]) == s.hist.pushLog
    ensures s.hist.callLog <= s.hist.pushLog
  {
    ReachableInv(s);
    assert s.hist.callLog <= PopTasks(s.hist.popLog) <= s.hist.pushLog;
  }

  /** In every mode a queue is in push order, so its owner takes the oldest task and a thief the
      newest; and after an owner's pop everything taken from that queue is newer. */
  lemma OldestFirst(s: State, k: nat, l: nat)
    requires Reachable(s) && k < l < |s.hist.popLog|
    requires s.hist.popLog[k].q == s.hist.popLog[l].q && !s.hist.popLog[k].back
    ensures s.hist.popLog[k].item.stamp < s.hist.popLog[l].item.stamp < |s.hist.pushLog|
    ensures s.hist.pushLog[s.hist.popLog[k].item.stamp] == s.hist.popLog[k].item.task
    ensures s.hist.pushLog[s.hist.popLog[l].item.stamp] == s.hist.popLog[l].item.task
  {
    ReachableInv(s);
    assert Stamped(s.hist.popLog[k].item, s.hist.pushLog) && Stamped(s.hist.popLog[l].item, s.hist.pushLog);
  }

  /** The owner takes the oldest task of its queue and leaves the others as they were. */
  lemma OwnerTakesOldest(s: State, w: nat)
    requires Reachable(s) && Shape(s) && WorkEnabled(s, w, PopOwn) && s.mem.queues[w] != []
    ensures var t := WorkStep(s, w, PopOwn); var dq := s.mem.queues[w];
      && t.workers[w] == Got(dq[0].task) && Shape(t)
      && (forall q :: 0 <= q < |s.mem.queues| && q != w ==> t.mem.queues[q] == s.mem.queues[q])
      && [dq[0]] + t.mem.queues[w] == dq
      && forall i :: 0 <= i < |t.mem.queues[w]| ==> dq[0].stamp < t.mem.queues[w][i].stamp
  {
    ReachableInv(s);
    WorkKeepsShape(s, w, PopOwn);
    assert Sorted(s.mem.queues[w]);
  }

  /** A thief takes the newest task of its victim's queue and leaves the others as they were. */
  lemma ThiefTakesNewest(s: State, w: nat, victim: nat)
    requires Reachable(s) && Shape(s) && WorkEnabled(s, w, Steal(victim)) && s.mem.queues[victim] != []
    ensures var t := WorkStep(s, w, Steal(victim)); var dq := s.mem.queues[victim]; var newest := dq[|dq| - 1];
      && t.workers[w] == Got(newest.task) && t.mem.stolen == s.mem.stolen + 1 && Shape(t)
      && (forall q :: 0 <= q < |s.mem.queues| && q != victim ==> t.mem.queues[q] == s.mem.queues[q])
      && t.mem.queues[victim] + [newest] == dq
      && forall i :: 0 <= i < |t.mem.queues[victim]| ==> t.mem.queues[victim][i].stamp < newest.stamp
  {
    ReachableInv(s);
    WorkKeepsShape(s, w, Steal(victim));
    assert Sorted(s.mem.queues[victim]);
  }

  /** After an owner found its queue empty it goes stealing exactly in work-stealing mode. */
  lemma EmptyQueueSteals(s: State, w: nat)
    requires Shape(s) && WorkEnabled(s, w, PopOwn) && s.mem.queues[w] == []
    ensures var t := WorkStep(s, w, PopOwn);
      && t.mem == s.mem && (t.workers[w].Stealing? <==> s.cfg.mode.WorkStealing?) && !PoolTasks.InHand(t.workers[w])
  {
  }

  lemma QueueInPushOrder(s: State, q: nat)
    requires Reachable(s) && q < |s.mem.queues|
    ensures Sorted(s.mem.queues[q])
    ensures s.mem.stolen == Sum(BackW, s.hist.popLog)
  {
    ReachableInv(s);
  }

  /** The mark never falls. */
  lemma MarkMonotone(s: State, t: State)
    requires Reachable(s) && Leads(s, t)
    ensures s.mem.mark <= t.mem.mark
  {
    ReachableInv(s);
    var acts :| Runs(s, acts, t);
    RunsKeepInv(s, acts, t);
  }

  ghost function Longest(qs: seq<seq<Item>>): nat {
    if qs == [] then 0 else Max(|qs[0]|, Longest(qs[1..]))
  }

  /** The greatest length any single queue had in any state of the run. */
  ghost function LongestSeen(s: State, acts: seq<Action>, t: State): nat
    requires Runs(s, acts, t)
    decreases |acts|
  {
    if acts == [] then Longest(s.mem.queues)
    else Max(Longest(s.mem.queues), LongestSeen(Step(s, acts[0]), acts[1..], t))
  }

  lemma {:induction false} LongestBounds(qs: seq<seq<Item>>, n: nat)
    requires forall q :: 0 <= q < |qs| ==> |qs[q]| <= n
    ensures Longest(qs) <= n
  {
    if qs != [] {
      assert forall q :: 0 <= q < |qs| - 1 ==> qs[1..][q] == qs[q + 1];
      LongestBounds(qs[1..], n);
    }
  }

  lemma {:induction false} LongestCovers(qs: seq<seq<Item>>, q: nat)
    requires q < |qs|
    ensures |qs[q]| <= Longest(qs)
  {
    if q > 0 {
      LongestCovers(qs[1..], q - 1);
    }
  }

  lemma StepMovesPeak(s: State, a: Action)
    requires Shape(s) && Enabled(s, a)
    ensures var t := Step(s, a);
      && Shape(t)
      && s.hist.peak <= t.hist.peak <= Max(s.hist.peak, Longest(t.mem.queues))
  {
    match a
    case Submit(p, act) =>
      SubmitKeepsShape(s, p, act);
      SubmitTouches(s, p, act);
      if act.Push? {
        LongestCovers(PushedBy(s, p).mem.queues, s.producers[p].q);
      }
    case Work(w, act) =>
      WorkKeepsShape(s, w, act);
      WorkTouches(s, w, act);
    case Other(act) =>
      OtherKeepsShape(s, act);
  }

  lemma {:induction false} PeakIsLongestSeen(s: State, acts: seq<Action>, t: State)
    requires Inv(s) && Runs(s, acts, t)
    ensures Max(s.hist.peak, LongestSeen(s, acts, t)) == t.hist.peak
    decreases |acts|
  {
    LongestBounds(s.mem.queues, s.hist.peak);
    if acts != [] {
      StepKeepsInv(s, acts[0]);
      StepMovesPeak(s, acts[0]);
      PeakIsLongestSeen(Step(s, acts[0]), acts[1..], t);
    }
  }

  /** Whenever no producer holds a queue mutex, the mark is the exact maximum over the whole run;
      while some do, it is at least the length of every queue that is free and never too high. */
  lemma MarkIsHistoricalMaximum(cfg: Config, acts: seq<Action>, t: State)
    requires 0 < cfg.threads && Runs(Init(cfg), acts, t)
    ensures t.mem.mark <= LongestSeen(Init(cfg), acts, t)
    ensures forall q :: 0 <= q < |t.mem.queues| && q < |t.mem.qOwner| && t.mem.qOwner[q].None? ==>
              |t.mem.queues[q]| <= t.mem.mark
    ensures (forall q :: 0 <= q < |t.mem.qOwner| ==> t.mem.qOwner[q].None?) ==>
              t.mem.mark == LongestSeen(Init(cfg), acts, t)
  {
    InitInv(cfg);
    RunsKeepInv(Init(cfg), acts, t);
    PeakIsLongestSeen(Init(cfg), acts, t);
  }
}
