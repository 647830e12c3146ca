/** Locks, the task counter, wakeups and admission: the invariants of the task processor that are
    equations and inequalities over all program counters at once. */
module PoolCounting {
  import opened Sums
  import opened PoolModel

  /** Inside the critical section of some queue mutex. */
  ghost predicate Holds(pc: SubmitPc) { pc.Pushed? || pc.Swapping? }

  ghost predicate HoldsQueue(pc: SubmitPc, q: nat) { Holds(pc) && pc.q == q }

  ghost predicate HoldsCv(pc: WorkPc) { pc.TestRunning? || pc.TestCount? || pc.BeforeWait? }

  ghost predicate QueueLockHeld(s: State, pc: SubmitPc, p: nat) {
    Holds(pc) ==> pc.q < |s.mem.qOwner| && s.mem.qOwner[pc.q] == Some(p)
  }

  /** The condition mutex is owned exactly by the thread inside one of its critical sections. */
  ghost predicate CvLock(s: State) {
    && (forall p :: 0 <= p < |s.producers| ==> (s.producers[p].Signalling? <==> s.mem.mutex == Some(Producer(p))))
    && (forall w :: 0 <= w < |s.workers| ==> (HoldsCv(s.workers[w]) <==> s.mem.mutex == Some(Worker(w))))
    && (s.mem.mutex.Some? ==>
          match s.mem.mutex.value
          case Producer(p) => p < |s.producers|
          case Worker(w) => w < |s.workers|)
  }

  /** A queue mutex is owned exactly by the producer that is pushing to the queue. */
  ghost predicate QueueLocks(s: State) {
    && (forall p {:trigger s.producers[p]} :: 0 <= p < |s.producers| ==> QueueLockHeld(s, s.producers[p], p))
    && (forall q :: 0 <= q < |s.mem.qOwner| && s.mem.qOwner[q].Some? ==>
          s.mem.qOwner[q].value < |s.producers| && HoldsQueue(s.producers[s.mem.qOwner[q].value], q))
  }

  /** The counter is the queued tasks, less those pushed but not yet counted, plus those popped but
      not yet discounted, modulo the word size. */
  ghost predicate Counts(s: State) { Tally(s.mem.counter, Queued(s), Undiscounted(s), Uncounteds(s)) }

  ghost predicate Tally(counter: nat, queued: nat, undiscounted: nat, uncounted: nat) {
    queued + undiscounted < WORD && counter == (queued + undiscounted - uncounted) % WORD
  }

  /** The moves of the tally: a push, a pop, the two updates of the counter. */
  lemma TallyMoves(c: nat, q: nat, h: nat, u: nat)
    requires Tally(c, q, h, u)
    ensures q + h + 1 < WORD ==> Tally(c, q + 1, h, u + 1)
    ensures u > 0 ==> Tally((c + 1) % WORD, q, h, u - 1)
    ensures q > 0 ==> Tally(c, q - 1, h + 1, u)
    ensures h > 0 ==> Tally((c + WORD - 1) % WORD, q, h - 1, u)
  {
  }

  /** Asleep, or holding the condition mutex with a zero just read. */
  ghost predicate Dozing(pc: WorkPc) { pc.Asleep? || pc.BeforeWait? }

  ghost predicate Wakeful(s: State) {
    Uncounteds(s) == 0 == SignalsOwed(s) && s.mem.counter != 0 ==>
      forall w :: 0 <= w < |s.workers| ==> !Dozing(s.workers[w])
  }

  ghost predicate Admission(s: State) {
    s.cfg.breaker && 0 < s.cfg.maxQueue ==> Queued(s) + Admitteds(s) <= s.cfg.maxQueue + s.cfg.producers - 1
  }

  ghost predicate Inv(s: State) { Shape(s) && CvLock(s) && QueueLocks(s) && Counts(s) && Wakeful(s) && Admission(s) }

  /** How the three sums over producers change when one producer moves. */
  lemma ProducerMoves(s: State, p: nat, pc: SubmitPc)
    requires p < |s.producers|
    ensures Sum(IsUncounted, s.producers[p := pc]) + IsUncounted(s.producers[p]) == Uncounteds(s) + IsUncounted(pc)
    ensures Sum(OwesSignal, s.producers[p := pc]) + OwesSignal(s.producers[p]) == SignalsOwed(s) + OwesSignal(pc)
    ensures Sum(IsAdmitted, s.producers[p := pc]) + IsAdmitted(s.producers[p]) == Admitteds(s) + IsAdmitted(pc)
  {
    SumUpdate(IsUncounted, s.producers, p, pc);
    SumUpdate(OwesSignal, s.producers, p, pc);
    SumUpdate(IsAdmitted, s.producers, p, pc);
  }

  lemma SubmitKeepsCvLock(s: State, p: nat, act: SubmitAct)
    requires Shape(s) && CvLock(s) && SubmitEnabled(s, p, act)
    ensures CvLock(SubmitStep(s, p, act))
  {
  }

  /** Every other step leaves the mutex, and the worker outside its critical sections. */
  lemma WorkOutside(s: State, w: nat, act: WorkAct)
    requires Shape(s) && WorkEnabled(s, w, act)
    requires !act.LockToTest? && !act.SeeRunning? && !act.SeeCount? && !act.Wait?
    ensures var t := WorkStep(s, w, act);
      && t.producers == s.producers && t.workers == s.workers[w := t.workers[w]]
      && t.mem.mutex == s.mem.mutex && !HoldsCv(t.workers[w]) && !HoldsCv(s.workers[w])
  {
  }

  lemma WorkInside(s: State, w: nat, act: WorkAct)
    requires Shape(s) && CvLock(s) && WorkEnabled(s, w, act)
    requires act.LockToTest? || act.SeeRunning? || act.SeeCount? || act.Wait?
    ensures var t := WorkStep(s, w, act);
      && t.producers == s.producers && t.workers == s.workers[w := t.workers[w]]
      && s.mem.mutex == (if act.LockToTest? then None else Some(Worker(w)))
      && t.mem.mutex == (if HoldsCv(t.workers[w]) then Some(Worker(w)) else None)
  {
  }

  lemma WorkKeepsCvLock(s: State, w: nat, act: WorkAct)
    requires Shape(s) && CvLock(s) && WorkEnabled(s, w, act)
    ensures CvLock(WorkStep(s, w, act))
  {
    if act.LockToTest? || act.SeeRunning? || act.SeeCount? || act.Wait? {
      WorkInside(s, w, act);
    } else {
      WorkOutside(s, w, act);
    }
    hide WorkStep, WorkEnabled, Shape;
  }

  lemma OtherKeepsCvLock(s: State, act: OtherAct)
    requires Shape(s) && CvLock(s) && OtherEnabled(s, act)
    ensures CvLock(OtherStep(s, act))
  {
  }

  /** A push takes a free queue mutex, the unlock releases it, and nothing in between changes it. */
  lemma SubmitOwners(s: State, p: nat, act: SubmitAct)
    requires Shape(s) && SubmitEnabled(s, p, act)
    ensures var t := SubmitStep(s, p, act); var pc := s.producers[p]; var pc' := t.producers[p];
      && t.producers == s.producers[p := pc']
      && (Holds(pc') <==> act.Push? || (Holds(pc) && !act.Unlock?))
      && (Holds(pc') ==> (pc.Drawn? || Holds(pc)) && pc'.q == pc.q)
  {
  }

  lemma SubmitMutexes(s: State, p: nat, act: SubmitAct)
    requires Shape(s) && SubmitEnabled(s, p, act)
    ensures var t := SubmitStep(s, p, act); var pc := s.producers[p];
      && (act.Push? ==> pc.Drawn? && pc.q < |s.mem.qOwner| && s.mem.qOwner[pc.q].None?)
      && (act.Unlock? ==> pc.Swapping? && pc.q < |s.mem.qOwner|)
      && t.mem.qOwner == (if act.Push? then s.mem.qOwner[pc.q := Some(p)]
                          else if act.Unlock? then s.mem.qOwner[pc.q := None] else s.mem.qOwner)
  {
  }

  lemma SubmitKeepsQueueLocks(s: State, p: nat, act: SubmitAct)
    requires Shape(s) && QueueLocks(s) && SubmitEnabled(s, p, act)
    ensures QueueLocks(SubmitStep(s, p, act))
  {
    SubmitOwners(s, p, act);
    SubmitMutexes(s, p, act);
    hide SubmitStep, SubmitEnabled, Shape;
  }

  lemma WorkKeepsQueueLocks(s: State, w: nat, act: WorkAct)
    requires Shape(s) && QueueLocks(s) && WorkEnabled(s, w, act)
    ensures QueueLocks(WorkStep(s, w, act))
  {
    var t := WorkStep(s, w, act);
    assert t.producers == s.producers && t.mem.qOwner == s.mem.qOwner;
    hide WorkStep, WorkEnabled, Shape;
  }

  lemma OtherKeepsQueueLocks(s: State, act: OtherAct)
    requires Shape(s) && QueueLocks(s) && OtherEnabled(s, act)
    ensures QueueLocks(OtherStep(s, act))
  {
  }

  /** Waking sleepers changes no sum that weighs sleeping and woken threads alike. */
  lemma {:induction false} WakeAllKeepsSum(weight: WorkPc -> nat, ws: seq<WorkPc>)
    requires weight(Asleep) == weight(Woken)
    ensures Sum(weight, WakeAll(ws)) == Sum(weight, ws)
  {
    if ws != [] {
      WakeAllKeepsSum(weight, ws[1..]);
      assert WakeAll(ws)[1..] == WakeAll(ws[1..]);
    }
  }

  lemma SubmitFlow(s: State, p: nat, act: SubmitAct)
    requires Shape(s) && SubmitEnabled(s, p, act)
    ensures var t := SubmitStep(s, p, act);
      && t.producers == s.producers[p := t.producers[p]]
      && t.workers == (if act.SignalAll? then WakeAll(s.workers) else s.workers)
      && t.mem.counter == (if act.Count? then (s.mem.counter + 1) % WORD else s.mem.counter)
      && IsUncounted(t.producers[p]) + (if act.Count? then 1 else 0)
         == IsUncounted(s.producers[p]) + (if act.Push? then 1 else 0)
  {
  }

  lemma SubmitMovesSums(s: State, p: nat, act: SubmitAct)
    requires Shape(s) && SubmitEnabled(s, p, act)
    ensures var t := SubmitStep(s, p, act);
      && Undiscounted(t) == Undiscounted(s)
      && Uncounteds(t) + (if act.Count? then 1 else 0) == Uncounteds(s) + (if act.Push? then 1 else 0)
      && t.mem.counter == (if act.Count? then (s.mem.counter + 1) % WORD else s.mem.counter)
  {
    var t := SubmitStep(s, p, act);
    SubmitFlow(s, p, act);
    hide SubmitStep, Shape;
    SumUpdate(IsUncounted, s.producers, p, t.producers[p]);
    WakeAllKeepsSum(IsUndiscounted, s.workers);
  }

  lemma SubmitKeepsCounts(s: State, p: nat, act: SubmitAct)
    requires Shape(s) && Counts(s) && SubmitEnabled(s, p, act)
    ensures Counts(SubmitStep(s, p, act))
  {
    assert act.Push? ==> RoomForOneMore(s);
    SubmitMovesSums(s, p, act);
    SubmitMovesQueues(s, p, act);
    hide SubmitStep, SubmitEnabled, Shape, Tally, Queued, Undiscounted, Uncounteds;
    TallyMoves(s.mem.counter, Queued(s), Undiscounted(s), Uncounteds(s));
  }

  /** What leaves the queues is what is popped. */
  lemma WorkMovesQueues(s: State, w: nat, act: WorkAct)
    requires Shape(s) && WorkEnabled(s, w, act)
    ensures var t := WorkStep(s, w, act);
      && Queued(t) + |t.hist.popLog| == Queued(s) + |s.hist.popLog|
      && |t.hist.popLog| == |s.hist.popLog| + (if t.workers[w].Got? then 1 else 0)
      && t.hist.pushLog == s.hist.pushLog
  {
    var t := WorkStep(s, w, act);
    if t.workers[w].Got? {
      var q := if act.PopOwn? then w else act.victim;
      SumUpdate(Length, s.mem.queues, q, t.mem.queues[q]);
    } else {
      assert t.mem.queues == s.mem.queues;
    }
  }

  /** What enters the queues is what is pushed. */
  lemma SubmitMovesQueues(s: State, p: nat, act: SubmitAct)
    requires Shape(s) && SubmitEnabled(s, p, act)
    ensures var t := SubmitStep(s, p, act);
      && Queued(t) + |s.hist.pushLog| == Queued(s) + |t.hist.pushLog|
      && t.hist.popLog == s.hist.popLog
      && |t.hist.pushLog| == |s.hist.pushLog| + (if act.Push? then 1 else 0)
  {
    var t := SubmitStep(s, p, act);
    if act.Push? {
      SumUpdate(Length, s.mem.queues, s.producers[p].q, t.mem.queues[s.producers[p].q]);
    }
  }

  lemma WorkMovesHands(s: State, w: nat, act: WorkAct)
    requires Shape(s) && WorkEnabled(s, w, act)
    ensures var t := WorkStep(s, w, act);
      && Undiscounted(t) + IsUndiscounted(s.workers[w]) == Undiscounted(s) + IsUndiscounted(t.workers[w])
      && (IsUndiscounted(s.workers[w]) == 1 <==> act.Discount?)
  {
    var t := WorkStep(s, w, act);
    SumUpdate(IsUndiscounted, s.workers, w, t.workers[w]);
    assert t.workers == s.workers[w := t.workers[w]];
  }

  lemma WorkFlow(s: State, w: nat, act: WorkAct)
    requires Shape(s) && WorkEnabled(s, w, act)
    ensures var t := WorkStep(s, w, act);
      && t.producers == s.producers
      && t.mem.counter == (if act.Discount? then (s.mem.counter + WORD - 1) % WORD else s.mem.counter)
      && (t.workers[w].Got? ==> !act.Discount?)
  {
  }

  lemma WorkKeepsCounts(s: State, w: nat, act: WorkAct)
    requires Shape(s) && Counts(s) && WorkEnabled(s, w, act)
    ensures Counts(WorkStep(s, w, act))
  {
    WorkFlow(s, w, act);
    WorkMovesQueues(s, w, act);
    WorkMovesHands(s, w, act);
    hide WorkStep, WorkEnabled, Shape, Tally;
    TallyMoves(s.mem.counter, Queued(s), Undiscounted(s), Uncounteds(s));
  }

  lemma OtherKeepsCounts(s: State, act: OtherAct)
    requires Shape(s) && Counts(s) && OtherEnabled(s, act)
    ensures Counts(OtherStep(s, act))
  {
    if act.StopSignal? {
      WakeAllKeepsSum(IsUndiscounted, s.workers);
    }
  }

  lemma SubmitKeepsWakeful(s: State, p: nat, act: SubmitAct)
    requires Shape(s) && CvLock(s) && Wakeful(s) && SubmitEnabled(s, p, act)
    ensures Wakeful(SubmitStep(s, p, act))
  {
    var t := SubmitStep(s, p, act);
    ProducerMoves(s, p, t.producers[p]);
    assert t.producers == s.producers[p := t.producers[p]];
  }

  /** A worker starts to doze only by reading a zero counter. */
  lemma WorkDozes(s: State, w: nat, act: WorkAct)
    requires Shape(s) && WorkEnabled(s, w, act)
    ensures var t := WorkStep(s, w, act);
      && t.workers == s.workers[w := t.workers[w]]
      && (Dozing(t.workers[w]) ==> Dozing(s.workers[w]) || (act.SeeCount? && s.mem.counter == 0))
      && (act.Discount? ==> s.workers[w].Got?)
  {
  }

  lemma WorkKeepsWakeful(s: State, w: nat, act: WorkAct)
    requires Shape(s) && Counts(s) && Wakeful(s) && WorkEnabled(s, w, act)
    ensures Wakeful(WorkStep(s, w, act))
  {
    WorkFlow(s, w, act);
    WorkDozes(s, w, act);
    hide WorkStep, WorkEnabled, Shape;
    if act.Discount? && Uncounteds(s) == 0 {
      SumElement(IsUndiscounted, s.workers, w);
      assert s.mem.counter != 0;
    }
  }

  lemma OtherKeepsWakeful(s: State, act: OtherAct)
    requires Shape(s) && Wakeful(s) && OtherEnabled(s, act)
    ensures Wakeful(OtherStep(s, act))
  {
  }

  /** The producer that passes the breaker saw fewer than maxQueue tasks, and at most all the others
      are between their check and their count. */
  lemma CheckKeepsAdmission(s: State, p: nat)
    requires Shape(s) && Counts(s) && Admission(s) && SubmitEnabled(s, p, Check)
    ensures Admission(Checked(s, p))
  {
    ProducerMoves(s, p, Checked(s, p).producers[p]);
    SumsLeaveOneOut(IsUncounted, IsAdmitted, s.producers, p);
  }

  lemma SubmitKeepsAdmission(s: State, p: nat, act: SubmitAct)
    requires Shape(s) && Counts(s) && Admission(s) && SubmitEnabled(s, p, act)
    ensures Admission(SubmitStep(s, p, act))
  {
    if act.Check? {
      CheckKeepsAdmission(s, p);
    } else {
      var t := SubmitStep(s, p, act);
      ProducerMoves(s, p, t.producers[p]);
      assert t.producers == s.producers[p := t.producers[p]];
      if act.Push? {
        SumUpdate(Length, s.mem.queues, s.producers[p].q, t.mem.queues[s.producers[p].q]);
      }
    }
  }

  lemma WorkKeepsAdmission(s: State, w: nat, act: WorkAct)
    requires Shape(s) && Admission(s) && WorkEnabled(s, w, act)
    ensures Admission(WorkStep(s, w, act))
  {
    WorkMovesQueues(s, w, act);
    assert WorkStep(s, w, act).producers == s.producers;
  }

  lemma StepKeepsInv(s: State, a: Action)
    requires Inv(s) && Enabled(s, a)
    ensures Inv(Step(s, a))
  {
    match a
    case Submit(p, act) =>
      SubmitKeepsShape(s, p, act);
      SubmitKeepsCvLock(s, p, act);
      SubmitKeepsQueueLocks(s, p, act);
      SubmitKeepsCounts(s, p, act);
      SubmitKeepsWakeful(s, p, act);
      SubmitKeepsAdmission(s, p, act);
    case Work(w, act) =>
      WorkKeepsShape(s, w, act);
      WorkKeepsCvLock(s, w, act);
      WorkKeepsQueueLocks(s, w, act);
      WorkKeepsCounts(s, w, act);
      WorkKeepsWakeful(s, w, act);
      WorkKeepsAdmission(s, w, act);
    case Other(act) =>
      OtherKeepsShape(s, act);
      OtherKeepsCvLock(s, act);
      OtherKeepsQueueLocks(s, act);
      OtherKeepsCounts(s, act);
      OtherKeepsWakeful(s, act);
  }

  lemma InitInv(cfg: Config)
    requires 0 < cfg.threads
    ensures Inv(Init(cfg))
  {
    var s := Init(cfg);
    SumConstant(Length, s.mem.queues, []);
    SumConstant(IsUndiscounted, s.workers, Top);
    SumConstant(IsUncounted, s.producers, Idle);
    SumConstant(IsAdmitted, s.producers, Idle);
  }

  lemma {:induction false} RunsKeepInv(s: State, acts: seq<Action>, t: State)
    requires Inv(s) && Runs(s, acts, t)
    ensures Inv(t)
    decreases |acts|
  {
    if acts != [] {
      StepKeepsInv(s, acts[0]);
      RunsKeepInv(Step(s, acts[0]), acts[1..], t);
    }
  }

  lemma ReachableInv(s: State)
    requires Reachable(s)
    ensures Inv(s)
  {
    InitInv(s.cfg);
    var acts :| Runs(Init(s.cfg), acts, s);
    RunsKeepInv(Init(s.cfg), acts, s);
  }

  // ---------- main results ----------

  /** A producer between its push and the end of its signal. */
  ghost predicate Announcing(pc: SubmitPc) { IsUncounted(pc) + OwesSignal(pc) > 0 }

  /** No lost wakeup: if the counter is nonzero while a worker sleeps, or is about to after reading
      zero, then some producer still owes it a signal. */
  lemma NoLostWakeup(s: State, w: nat)
    requires Reachable(s) && w < |s.workers| && Dozing(s.workers[w]) && s.mem.counter != 0
    ensures exists p :: 0 <= p < |s.producers| && Announcing(s.producers[p])
  {
    ReachableInv(s);
    SumZero(IsUncounted, s.producers);
    SumZero(OwesSignal, s.producers);
  }

  /** Once no producer is announcing, a sleeping worker means that there is no work at all. */
  lemma SleepMeansNoWork(s: State, w: nat)
    requires Reachable(s) && w < |s.workers| && Dozing(s.workers[w])
    requires forall p :: 0 <= p < |s.producers| ==> !Announcing(s.producers[p])
    ensures forall q :: 0 <= q < |s.mem.queues| ==> s.mem.queues[q] == []
    ensures forall v :: 0 <= v < |s.workers| ==> !s.workers[v].Got?
  {
    ReachableInv(s);
    SumZero(IsUncounted, s.producers);
    SumZero(OwesSignal, s.producers);
    SumZero(Length, s.mem.queues);
    SumZero(IsUndiscounted, s.workers);
    assert forall q :: 0 <= q < |s.mem.queues| ==> Length(s.mem.queues[q]) == 0;
    assert forall v :: 0 <= v < |s.workers| ==> IsUndiscounted(s.workers[v]) == 0;
  }

  /** The counter in every reachable state, and its exactness once nobody is in between. */
  lemma CounterAccounting(s: State)
    requires Reachable(s)
    ensures s.mem.counter == (Queued(s) - Uncounteds(s) + Undiscounted(s)) % WORD
    ensures Uncounteds(s) == 0 == Undiscounted(s) ==> s.mem.counter == Queued(s)
    ensures s.cfg.producers < WORD ==>
              (s.mem.counter > Queued(s) + Undiscounted(s) <==> Queued(s) + Undiscounted(s) < Uncounteds(s))
  {
    ReachableInv(s);
    SumAtMostLength(IsUncounted, s.producers);
  }

  /** Never more than maxQueue + producers - 1 tasks are queued. */
  lemma AdmissionBound(s: State)
    requires Reachable(s) && s.cfg.breaker && 0 < s.cfg.maxQueue
    ensures Queued(s) + Admitteds(s) <= s.cfg.maxQueue + s.cfg.producers - 1
  {
    ReachableInv(s);
  }

  /** The condition mutex excludes: two threads inside critical sections of it are one and the same. */
  lemma ConditionMutexExcludes(s: State, v: nat, w: nat, p: nat, r: nat)
    requires Reachable(s) && v < |s.workers| && w < |s.workers| && p < |s.producers| && r < |s.producers|
    ensures HoldsCv(s.workers[v]) && HoldsCv(s.workers[w]) ==> v == w
    ensures s.producers[p].Signalling? && s.producers[r].Signalling? ==> p == r
    ensures !(HoldsCv(s.workers[w]) && s.producers[p].Signalling?)
  {
    ReachableInv(s);
  }
}
