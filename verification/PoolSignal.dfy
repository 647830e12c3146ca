/** The destructor's only signal, given without the condition mutex: when a worker sleeps through it, and
    that the destructor finishes otherwise. */
module PoolSignal {
  import opened Sums
  import opened PoolModel
  import opened PoolShutdown
  import PoolCounting
  import PoolTasks

  // ---------- outside the window nobody sleeps ----------

  /** Stopped, and nobody sleeps or is about to without testing running_ again. */
  ghost predicate AllWillSee(s: State) {
    && !s.mem.running
    && forall w :: 0 <= w < |s.workers| ==>
         !s.workers[w].TestCount? && !s.workers[w].BeforeWait? && !s.workers[w].Asleep?
  }

  lemma StepKeepsSeeing(s: State, a: Action)
    requires Shape(s) && Enabled(s, a) && AllWillSee(s)
    ensures Shape(Step(s, a)) && AllWillSee(Step(s, a))
  {
    match a
    case Submit(p, act) =>
      SubmitKeepsShape(s, p, act);
      SubmitStaysStopped(s, p, act);
      PoolTasks.SubmitRecords(s, p, act);
    case Work(w, act) =>
      WorkKeepsShape(s, w, act);
    case Other(act) =>
      OtherKeepsShape(s, act);
  }

  lemma {:induction false} RunsKeepSeeing(s: State, acts: seq<Action>, t: State)
    requires Shape(s) && AllWillSee(s) && Runs(s, acts, t)
    ensures AllWillSee(t)
    decreases |acts|
  {
    if acts != [] {
      StepKeepsSeeing(s, acts[0]);
      RunsKeepSeeing(Step(s, acts[0]), acts[1..], t);
    }
  }

  ghost predicate SomeAsleep(s: State) { exists w :: 0 <= w < |s.workers| && s.workers[w].Asleep? }

  /** Worker w holds the condition mutex and has already read running_ as true. */
  ghost predicate InWindow(s: State, w: nat) {
    w < |s.workers| && (s.workers[w].TestCount? || s.workers[w].BeforeWait?)
  }

  /** The destructor stores running_ and signals without the condition mutex.  If nobody is between
      its test of running_ and its wait at the moment of the signal, nobody sleeps ever after. */
  lemma SignalReachesAll(s: State, t: State)
    requires Reachable(s) && s.dtor.Stopping? && Leads(OtherStep(s, StopSignal), t) && SomeAsleep(t)
    ensures exists w :: InWindow(s, w)
  {
    ReachableStop(s);
    var u := OtherStep(s, StopSignal);
    OtherKeepsShape(s, StopSignal);
    if forall w :: !InWindow(s, w) {
      var acts :| Runs(u, acts, t);
      assert AllWillSee(u) by {
        forall w | 0 <= w < |u.workers|
          ensures !u.workers[w].TestCount? && !u.workers[w].BeforeWait? && !u.workers[w].Asleep?
        {
          assert !InWindow(s, w);
        }
      }
      RunsKeepSeeing(u, acts, t);
      assert false;
    }
  }

  // ---------- runs without help ----------

  /** No producer acts, and nobody wakes up by himself. */
  ghost predicate Calm(acts: seq<Action>) {
    forall k :: 0 <= k < |acts| ==> CalmAction(acts[k])
  }

  ghost predicate CalmAction(a: Action) { !a.Submit? && !(a.Work? && a.wa.SpuriousWake?) }

  ghost predicate CalmLeads(s: State, t: State) { exists acts :: Runs(s, acts, t) && Calm(acts) }

  lemma CalmHere(s: State)
    ensures CalmLeads(s, s)
  {
    assert Runs(s, [], s) && Calm([]);
  }

  lemma CalmStep(s: State, t: State, a: Action)
    requires CalmLeads(s, t) && Shape(t) && Enabled(t, a) && CalmAction(a)
    ensures CalmLeads(s, Step(t, a))
  {
    var acts :| Runs(s, acts, t) && Calm(acts);
    RunsSnoc(s, acts, t, a);
    assert Calm(acts + [a]);
  }

  // ---------- a worker in the window whose counter falls to zero ----------

  /** Worker w holds the condition mutex, has read running_ as true, and is about to look at the counter. */
  ghost predicate AtCount(s: State, w: nat) {
    PoolCounting.Inv(s) && !s.mem.running && w < |s.workers| && s.workers[w].TestCount?
  }

  /** One more step of another worker while worker w is about to look. */
  lemma Meanwhile(s0: State, s: State, w: nat, v: nat, act: WorkAct) returns (t: State)
    requires CalmLeads(s0, s) && AtCount(s, w) && v != w && WorkEnabled(s, v, act) && !act.SpuriousWake?
    requires act.PopOwn? || act.Steal? || act.Discount?
    ensures t == WorkStep(s, v, act) && CalmLeads(s0, t) && AtCount(t, w) && t.cfg == s.cfg
    ensures t.producers == s.producers && t.dtor == s.dtor
  {
    t := WorkStep(s, v, act);
    CalmStep(s0, s, Work(v, act));
    PoolCounting.StepKeepsInv(s, Work(v, act));
    WorkFlags(s, v, act);
    WorkMoves(s, v, act);
    PoolCounting.WorkFlow(s, v, act);
    WorkKeepsShape(s, v, act);
  }

  /** The workers that have popped discount their tasks. */
  lemma {:induction false} CounterFalls(s0: State, s: State, w: nat) returns (t: State)
    requires CalmLeads(s0, s) && AtCount(s, w) && s.mem.counter <= Undiscounted(s)
    ensures CalmLeads(s0, t) && AtCount(t, w) && t.mem.counter == 0 && t.dtor == s.dtor
    decreases s.mem.counter
  {
    if s.mem.counter == 0 {
      t := s;
    } else {
      SumZero(IsUndiscounted, s.workers);
      var v :| 0 <= v < |s.workers| && IsUndiscounted(s.workers[v]) != 0;
      t := Meanwhile(s0, s, w, v, Discount);
      PoolCounting.WorkMovesHands(s, v, Discount);
      PoolCounting.WorkFlow(s, v, Discount);
      hide WorkStep, PoolCounting.Inv;
      t := CounterFalls(s0, t, w);
    }
  }

  /** It reads zero and sleeps. */
  lemma FallsAsleep(s0: State, s: State, w: nat) returns (t: State)
    requires CalmLeads(s0, s) && Shape(s) && w < |s.workers|
    requires s.workers[w].BeforeWait? || (s.workers[w].TestCount? && s.mem.counter == 0)
    ensures CalmLeads(s0, t) && Shape(t) && w < |t.workers| && t.workers[w].Asleep? && t.dtor == s.dtor
  {
    t := s;
    if s.workers[w].TestCount? {
      CalmStep(s0, t, Work(w, SeeCount));
      WorkKeepsShape(t, w, SeeCount);
      t := WorkStep(t, w, SeeCount);
    }
    CalmStep(s0, t, Work(w, Wait));
    WorkKeepsShape(t, w, Wait);
    t := WorkStep(t, w, Wait);
  }

  /** The signal reaches nobody in the window, so a worker there that is about to wait, or whose counter the
      others can bring down to zero by finishing what they have popped, sleeps after it. */
  lemma SignalMissed(s: State, w: nat)
    requires Reachable(s) && s.dtor.Stopping? && InWindow(s, w)
    requires s.workers[w].BeforeWait? || s.mem.counter <= Undiscounted(s)
    ensures exists t :: CalmLeads(OtherStep(s, StopSignal), t) && SomeAsleep(t)
  {
    var u := AfterSignal(s);
    CalmHere(u);
    var t := u;
    if s.workers[w].TestCount? {
      t := CounterFalls(u, u, w);
    }
    t := FallsAsleep(u, t, w);
    assert SomeAsleep(t);
  }

  /** The state after the signal. */
  lemma AfterSignal(s: State) returns (u: State)
    requires Reachable(s) && s.dtor.Stopping?
    ensures u == OtherStep(s, StopSignal) && PoolCounting.Inv(s) && PoolCounting.Inv(u) && StopInv(u)
    ensures u.workers == WakeAll(s.workers) && u.mem == s.mem && u.producers == s.producers && u.cfg == s.cfg
    ensures u.dtor.Signalled? && !u.mem.running && Undiscounted(u) == Undiscounted(s)
    ensures Poppers(u) == Poppers(s)
  {
    u := OtherStep(s, StopSignal);
    PoolCounting.ReachableInv(s);
    PoolCounting.StepKeepsInv(s, Other(StopSignal));
    ReachableStop(s);
    OtherKeepsStop(s, StopSignal);
    PoolCounting.WakeAllKeepsSum(IsUndiscounted, s.workers);
    PoolCounting.WakeAllKeepsSum(IsPopper, s.workers);
  }

  // ---------- the exact window, once the producers are done ----------

  /** A worker on its way to one more pop that needs no look at the counter. */
  ghost function IsPopper(pc: WorkPc): nat { if pc.Owning? || pc.Stealing? then 1 else 0 }

  ghost function Poppers(s: State): nat { Sum(IsPopper, s.workers) }

  /** The workers that are at a pop already can empty the queues without a look at the counter: thieves
      take from anywhere, in the other modes a worker takes one task of its own queue. */
  ghost predicate Drainable(s: State)
    requires Shape(s)
  {
    if s.cfg.mode.WorkStealing? then Queued(s) <= Poppers(s)
    else forall q :: 0 <= q < |s.mem.queues| ==> |s.mem.queues[q]| <= if s.workers[q].Owning? then 1 else 0
  }

  /** Worker w will sleep through the signal, or may. */
  ghost predicate LosingWindow(s: State, w: nat)
    requires Shape(s)
  {
    w < |s.workers| && (s.workers[w].BeforeWait? || (s.workers[w].TestCount? && Drainable(s)))
  }

  /** Only thieves steal. */
  ghost predicate NoStray(s: State) {
    !s.cfg.mode.WorkStealing? ==> forall w :: 0 <= w < |s.workers| ==> !s.workers[w].Stealing?
  }

  lemma WorkGoesStealing(s: State, w: nat, act: WorkAct)
    requires Shape(s) && WorkEnabled(s, w, act)
    ensures WorkStep(s, w, act).workers[w].Stealing? ==> s.cfg.mode.WorkStealing?
  {
  }

  lemma StepKeepsNoStray(s: State, a: Action)
    requires Shape(s) && Enabled(s, a) && NoStray(s)
    ensures Shape(Step(s, a)) && NoStray(Step(s, a))
  {
    StepKeepsShapeOf(s, a);
    match a
    case Submit(p, act) =>
      PoolTasks.SubmitRecords(s, p, act);
      hide SubmitStep, SubmitEnabled, Shape;
    case Work(w, act) =>
      WorkMoves(s, w, act);
      WorkGoesStealing(s, w, act);
      hide WorkStep, WorkEnabled, Shape;
    case Other(act) =>
      OtherWakes(s, act);
      hide OtherStep, Shape;
  }

  lemma OtherWakes(s: State, act: OtherAct)
    requires Shape(s) && OtherEnabled(s, act)
    ensures OtherStep(s, act).workers == if act.StopSignal? then WakeAll(s.workers) else s.workers
  {
  }

  lemma {:induction false} RunsKeepNoStray(s: State, acts: seq<Action>, t: State)
    requires Shape(s) && NoStray(s) && Runs(s, acts, t)
    ensures NoStray(t)
    decreases |acts|
  {
    if acts != [] {
      StepKeepsNoStray(s, acts[0]);
      RunsKeepNoStray(Step(s, acts[0]), acts[1..], t);
    }
  }

  lemma ReachableNoStray(s: State)
    requires Reachable(s)
    ensures NoStray(s)
  {
    var acts :| Runs(Init(s.cfg), acts, s);
    RunsKeepNoStray(Init(s.cfg), acts, s);
  }

  /** How a pop changes the queues and the poppers. */
  lemma PopMoves(s: State, v: nat, act: WorkAct)
    requires Shape(s) && WorkEnabled(s, v, act) && (act.PopOwn? || act.Steal?)
    ensures var t := WorkStep(s, v, act); var q := if act.PopOwn? then v else act.victim;
      && Shape(t) && t.cfg == s.cfg && t.workers == s.workers[v := t.workers[v]]
      && Poppers(t) + 1 == Poppers(s) + IsPopper(t.workers[v])
      && if s.mem.queues[q] != []
         then && t.mem.queues == s.mem.queues[q := RestOf(s.mem.queues[q], act.Steal?)]
              && Queued(t) + 1 == Queued(s) && t.workers[v].Got?
         else t.mem.queues == s.mem.queues && Queued(t) == Queued(s)
              && (t.workers[v].Stealing? <==> act.PopOwn? && s.cfg.mode.WorkStealing?)
              && !t.workers[v].Owning?
  {
    var t := WorkStep(s, v, act);
    var q := if act.PopOwn? then v else act.victim;
    WorkKeepsShape(s, v, act);
    SumUpdate(IsPopper, s.workers, v, t.workers[v]);
    if s.mem.queues[q] != [] {
      SumUpdate(Length, s.mem.queues, q, RestOf(s.mem.queues[q], act.Steal?));
    }
  }

  lemma FreeQueues(s: State)
    requires PoolCounting.Inv(s) && AllIdle(s)
    ensures forall q :: 0 <= q < |s.mem.qOwner| ==> s.mem.qOwner[q].None?
    ensures Uncounteds(s) == 0
  {
    SumZero(IsUncounted, s.producers);
  }

  /** A popper takes a task from queue q, by way of its own empty queue if need be. */
  lemma ThiefTakes(s0: State, s: State, w: nat, v: nat, q: nat) returns (t: State)
    requires CalmLeads(s0, s) && AtCount(s, w) && AllIdle(s) && s.cfg.mode.WorkStealing?
    requires q < |s.mem.queues| && s.mem.queues[q] != [] && v < |s.workers| && IsPopper(s.workers[v]) == 1
    ensures CalmLeads(s0, t) && AtCount(t, w) && t.producers == s.producers && t.dtor == s.dtor && t.cfg == s.cfg
    ensures Queued(t) + 1 == Queued(s) && Poppers(t) + 1 == Poppers(s)
  {
    FreeQueues(s);
    t := s;
    if s.workers[v].Owning? {
      PopMoves(s, v, PopOwn);
      t := Meanwhile(s0, s, w, v, PopOwn);
    }
    if t.workers[v].Stealing? {
      FreeQueues(t);
      PopMoves(t, v, Steal(q));
      t := Meanwhile(s0, t, w, v, Steal(q));
    }
  }

  /** One task leaves the queues while worker w is about to look. */
  lemma DrainOne(s0: State, s: State, w: nat) returns (t: State)
    requires CalmLeads(s0, s) && AtCount(s, w) && AllIdle(s) && Drainable(s) && Queued(s) > 0
    ensures CalmLeads(s0, t) && AtCount(t, w) && AllIdle(t) && Drainable(t) && Queued(t) == Queued(s) - 1
    ensures t.dtor == s.dtor
  {
    SumZero(Length, s.mem.queues);
    var q :| 0 <= q < |s.mem.queues| && Length(s.mem.queues[q]) != 0;
    if s.cfg.mode.WorkStealing? {
      SumZero(IsPopper, s.workers);
      var v :| 0 <= v < |s.workers| && IsPopper(s.workers[v]) != 0;
      t := ThiefTakes(s0, s, w, v, q);
    } else {
      FreeQueues(s);
      PopMoves(s, q, PopOwn);
      t := Meanwhile(s0, s, w, q, PopOwn);
    }
  }

  lemma {:induction false} DrainQueues(s0: State, s: State, w: nat) returns (t: State)
    requires CalmLeads(s0, s) && AtCount(s, w) && AllIdle(s) && Drainable(s)
    ensures CalmLeads(s0, t) && AtCount(t, w) && t.mem.counter <= Undiscounted(t) && t.dtor == s.dtor
    decreases Queued(s)
  {
    if Queued(s) == 0 {
      t := s;
      FreeQueues(s);
    } else {
      t := DrainOne(s0, s, w);
      t := DrainQueues(s0, t, w);
    }
  }

  lemma LosingWindowLoses(s: State, w: nat)
    requires Reachable(s) && s.dtor.Stopping? && AllIdle(s) && Shape(s) && LosingWindow(s, w)
    ensures exists t ::
      CalmLeads(OtherStep(s, StopSignal), t) && Shape(t) && w < |t.workers| && t.workers[w].Asleep? && t.dtor.Signalled?
  {
    var u := AfterSignal(s);
    CalmHere(u);
    var t := u;
    if s.workers[w].TestCount? {
      t := DrainQueues(u, u, w);
      t := CounterFalls(u, t, w);
    }
    t := FallsAsleep(u, t, w);
  }

  // ---------- no losing window: everybody sees the stop ----------

  /** Stopped, with idle producers; nobody sleeps or is about to wait, and whoever is about to look at the
      counter will find it nonzero. */
  ghost predicate Alert(s: State) {
    && PoolCounting.Inv(s) && StopInv(s) && NoStray(s) && AllIdle(s) && !s.mem.running && !s.dtor.Stopping?
    && forall w :: 0 <= w < |s.workers| ==> Sees(s, s.workers[w])
  }

  ghost predicate Sees(s: State, pc: WorkPc)
    requires Shape(s)
  {
    !pc.BeforeWait? && !pc.Asleep? && (pc.TestCount? ==> !Drainable(s))
  }

  /** What cannot be drained is not empty, and counted. */
  lemma UndrainableCounts(s: State)
    requires PoolCounting.Inv(s) && AllIdle(s) && !Drainable(s)
    ensures s.mem.counter > 0
  {
    FreeQueues(s);
    SumZero(Length, s.mem.queues);
    if !s.cfg.mode.WorkStealing? {
      var q :| 0 <= q < |s.mem.queues| && |s.mem.queues[q]| > if s.workers[q].Owning? then 1 else 0;
      assert Length(s.mem.queues[q]) != 0;
    }
  }

  /** A pop by someone else does not make the queues drainable. */
  lemma PopKeepsUndrainable(s: State, v: nat, act: WorkAct)
    requires Shape(s) && NoStray(s) && WorkEnabled(s, v, act) && (act.PopOwn? || act.Steal?) && !Drainable(s)
    ensures Shape(WorkStep(s, v, act)) && !Drainable(WorkStep(s, v, act))
  {
    PopMoves(s, v, act);
    var t := WorkStep(s, v, act);
    if !s.cfg.mode.WorkStealing? {
      assert act.PopOwn?;
      var q :| 0 <= q < |s.mem.queues| && |s.mem.queues[q]| > if s.workers[q].Owning? then 1 else 0;
      assert |t.mem.queues[q]| > if t.workers[q].Owning? then 1 else 0;
    }
  }

  /** The other steps neither pop nor send anybody to a pop, but for the two ends of a test. */
  lemma OthersKeepDrainable(s: State, v: nat, act: WorkAct)
    requires Shape(s) && WorkEnabled(s, v, act) && !act.PopOwn? && !act.Steal? && !act.SeeRunning? && !act.SeeCount?
    ensures var t := WorkStep(s, v, act);
      && Shape(t) && t.cfg == s.cfg && t.mem.queues == s.mem.queues && t.workers == s.workers[v := t.workers[v]]
      && (t.workers[v].Owning? <==> s.workers[v].Owning?) && IsPopper(t.workers[v]) == IsPopper(s.workers[v])
      && !t.workers[v].TestCount? && !t.workers[v].BeforeWait? && (t.workers[v].Asleep? ==> s.workers[v].BeforeWait?)
      && (t.workers[v].Stealing? ==> s.workers[v].Stealing?)
  {
    WorkKeepsShape(s, v, act);
  }

  lemma SameDrainable(s: State, t: State, v: nat)
    requires Shape(s) && Shape(t) && t.cfg == s.cfg && t.mem.queues == s.mem.queues && v < |s.workers|
    requires |t.workers| == |s.workers| && t.workers == s.workers[v := t.workers[v]]
    requires IsPopper(t.workers[v]) == IsPopper(s.workers[v]) && (t.workers[v].Owning? <==> s.workers[v].Owning?)
    ensures Drainable(t) <==> Drainable(s)
  {
    SumUpdate(IsPopper, s.workers, v, t.workers[v]);
    assert forall q :: 0 <= q < |s.workers| ==> (t.workers[q].Owning? <==> s.workers[q].Owning?);
  }

  /** A worker's test of running_, or of the counter, leaves nobody else in the window. */
  lemma TestsEnd(s: State, v: nat, act: WorkAct)
    requires Alert(s) && WorkEnabled(s, v, act) && (act.SeeRunning? || act.SeeCount?)
    ensures var t := WorkStep(s, v, act);
      && t.workers == s.workers[v := Owning] && t.mem.mutex.None?
  {
    if act.SeeCount? {
      assert Sees(s, s.workers[v]);
      UndrainableCounts(s);
    }
  }

  lemma WorkKeepsSees(s: State, v: nat, act: WorkAct)
    requires Alert(s) && WorkEnabled(s, v, act) && !act.SpuriousWake? && PoolCounting.Inv(WorkStep(s, v, act))
    ensures var t := WorkStep(s, v, act);
      forall w :: 0 <= w < |t.workers| ==> Sees(t, t.workers[w])
  {
    var t := WorkStep(s, v, act);
    WorkMoves(s, v, act);
    WorkKeepsShape(s, v, act);
    assert forall w :: 0 <= w < |s.workers| ==> Sees(s, s.workers[w]);
    if act.SeeRunning? || act.SeeCount? {
      TestsEnd(s, v, act);
      hide WorkStep, WorkEnabled, Drainable, Shape;
      forall w | 0 <= w < |t.workers| ensures Sees(t, t.workers[w]) {
        assert !PoolCounting.HoldsCv(t.workers[w]);
      }
    } else if act.PopOwn? || act.Steal? {
      PopMoves(s, v, act);
      if !Drainable(s) {
        PopKeepsUndrainable(s, v, act);
      }
      hide WorkStep, WorkEnabled, Drainable, Shape;
    } else {
      OthersKeepDrainable(s, v, act);
      SameDrainable(s, t, v);
      hide WorkStep, WorkEnabled, Drainable, Shape;
    }
  }

  lemma WorkKeepsAlert(s: State, v: nat, act: WorkAct)
    requires Alert(s) && WorkEnabled(s, v, act) && !act.SpuriousWake?
    ensures Alert(WorkStep(s, v, act))
  {
    PoolCounting.StepKeepsInv(s, Work(v, act));
    WorkKeepsStop(s, v, act);
    StepKeepsNoStray(s, Work(v, act));
    WorkKeepsSees(s, v, act);
    WorkFlags(s, v, act);
    PoolCounting.WorkFlow(s, v, act);
    hide WorkStep, WorkEnabled, PoolCounting.Inv, StopInv, NoStray, Sees;
  }

  lemma OtherKeepsAlert(s: State, act: OtherAct)
    requires Alert(s) && OtherEnabled(s, act)
    ensures Alert(OtherStep(s, act))
  {
    PoolCounting.StepKeepsInv(s, Other(act));
    OtherKeepsStop(s, act);
    StepKeepsNoStray(s, Other(act));
    assert WakeAll(s.workers) == s.workers by {
      assert forall w :: 0 <= w < |s.workers| ==> Sees(s, s.workers[w]);
    }
  }

  lemma {:induction false} RunsKeepAlert(s: State, acts: seq<Action>, t: State)
    requires Alert(s) && Runs(s, acts, t) && Calm(acts)
    ensures Alert(t)
    decreases |acts|
  {
    if acts != [] {
      assert CalmAction(acts[0]);
      match acts[0] {
        case Work(v, act) => WorkKeepsAlert(s, v, act);
        case Other(act) => OtherKeepsAlert(s, act);
      }
      assert forall k :: 0 <= k < |acts| - 1 ==> acts[1..][k] == acts[k + 1];
      RunsKeepAlert(Step(s, acts[0]), acts[1..], t);
    }
  }

  lemma NoLosingWindowIsAlert(s: State) returns (u: State)
    requires Reachable(s) && s.dtor.Stopping? && AllIdle(s) && Shape(s) && forall w :: !LosingWindow(s, w)
    ensures u == OtherStep(s, StopSignal) && Alert(u) && u.dtor.Signalled?
  {
    u := AfterSignal(s);
    ReachableNoStray(s);
    StepKeepsNoStray(s, Other(StopSignal));
    assert Drainable(u) <==> Drainable(s);
    forall w | 0 <= w < |u.workers| ensures Sees(u, u.workers[w]) {
      assert !LosingWindow(s, w);
    }
  }

  /** With idle producers, somebody can sleep after the signal exactly when a worker is in the window at the
      signal and is about to wait, or about to look at a counter that the workers already at a pop can
      bring down to zero. */
  lemma ShutdownSignalLostIff(s: State)
    requires Reachable(s) && s.dtor.Stopping? && AllIdle(s) && Shape(s)
    ensures (exists t :: CalmLeads(OtherStep(s, StopSignal), t) && SomeAsleep(t)) <==> exists w :: LosingWindow(s, w)
  {
    if w: nat :| LosingWindow(s, w) {
      LosingWindowLoses(s, w);
    } else {
      var u := NoLosingWindowIsAlert(s);
      forall t | CalmLeads(u, t) ensures !SomeAsleep(t) {
        var acts :| Runs(u, acts, t) && Calm(acts);
        RunsKeepAlert(u, acts, t);
        assert forall w :: 0 <= w < |t.workers| ==> Sees(t, t.workers[w]);
      }
    }
  }

  // ---------- the destructor finishes ----------

  /** How far a worker is from having left, in steps. */
  ghost function Rank(pc: WorkPc): nat {
    match pc
    case Gone => 0
    case Leaving => 1
    case Top => 2
    case Dropping => 3
    case Executing(_) => 4
    case Wrapping(_) => 5
    case Calling(_) => 6
    case Discounted(_) => 7
    case Got(_) => 8
    case Stealing => 9
    case Owning => 10
    case TestCount => 15
    case TestRunning => 11
    case BeforeWait => 14
    case Wanting => 12
    case Woken => 12
    case Asleep => 13
  }

  ghost function Distance(s: State): nat { Sum(Rank, s.workers) }

  lemma WorkLowersRank(s: State, v: nat, act: WorkAct)
    requires Shape(s) && WorkEnabled(s, v, act) && !s.mem.running
    ensures Rank(WorkStep(s, v, act).workers[v]) < Rank(s.workers[v])
  {
  }

  /** Once running_ is false every step of a worker, asleep or not, brings the workers nearer to their end. */
  lemma WorkComesNearer(s: State, v: nat, act: WorkAct)
    requires Shape(s) && WorkEnabled(s, v, act) && !s.mem.running
    ensures Distance(WorkStep(s, v, act)) < Distance(s)
  {
    WorkMoves(s, v, act);
    WorkLowersRank(s, v, act);
    hide WorkStep, WorkEnabled, Rank;
    SumUpdate(Rank, s.workers, v, WorkStep(s, v, act).workers[v]);
  }

  /** The next step of a worker that does not need the condition mutex. */
  ghost function NextAct(pc: WorkPc, w: nat): WorkAct {
    match pc
    case Top => Loop
    case Wanting => LockToTest
    case Woken => LockToTest
    case TestRunning => SeeRunning
    case TestCount => SeeCount
    case BeforeWait => Wait
    case Asleep => SpuriousWake
    case Owning => PopOwn
    case Stealing => Steal(w)
    case Got(_) => Discount
    case Discounted(_) => Tally
    case Calling(_) => Call
    case Wrapping(_) => Wrap
    case Executing(_) => Finish(true)
    case Dropping => ReportDrops
    case Leaving => Leave
    case Gone => Leave
  }

  /** While a worker is left, some worker can move. */
  lemma SomeoneMoves(s: State, w: nat) returns (v: nat)
    requires PoolCounting.Inv(s) && AllIdle(s) && w < |s.workers| && !s.workers[w].Gone?
    ensures v < |s.workers| && WorkEnabled(s, v, NextAct(s.workers[v], v))
    ensures s.workers[v].Asleep? ==> s.workers[w].Asleep?
  {
    FreeQueues(s);
    v := w;
    if (s.workers[w].Wanting? || s.workers[w].Woken?) && s.mem.mutex.Some? {
      CvOwner(s);
      v := s.mem.mutex.value.w;
    }
  }

  lemma CvOwner(s: State)
    requires PoolCounting.Inv(s) && AllIdle(s) && s.mem.mutex.Some?
    ensures s.mem.mutex.value.Worker? && s.mem.mutex.value.w < |s.workers|
    ensures PoolCounting.HoldsCv(s.workers[s.mem.mutex.value.w])
  {
  }

  /** All workers leave. */
  lemma {:induction false} AllLeave(s0: State, s: State) returns (t: State)
    requires CalmLeads(s0, s) && Alert(s)
    ensures CalmLeads(s0, t) && Alert(t) && t.dtor == s.dtor
    ensures forall w :: 0 <= w < |t.workers| ==> t.workers[w].Gone?
    decreases Distance(s)
  {
    if w :| 0 <= w < |s.workers| && !s.workers[w].Gone? {
      var v := SomeoneMoves(s, w);
      var act := NextAct(s.workers[v], v);
      assert Sees(s, s.workers[w]);
      CalmStep(s0, s, Work(v, act));
      WorkKeepsAlert(s, v, act);
      WorkComesNearer(s, v, act);
      WorkFlags(s, v, act);
      hide WorkStep, Alert;
      t := AllLeave(s0, WorkStep(s, v, act));
    } else {
      t := s;
    }
  }

  /** From an alert state the destructor can finish without help. */
  lemma AlertFinishes(s: State) returns (t: State)
    requires Alert(s) && !s.dtor.Alive?
    ensures CalmLeads(s, t) && t.dtor.Destroyed?
  {
    CalmHere(s);
    t := AllLeave(s, s);
    SumZero(StillIn, t.workers);
    if t.dtor.Signalled? {
      CalmStep(s, t, Other(StopJoin));
      OtherKeepsShape(t, StopJoin);
      t := OtherStep(t, StopJoin);
    }
    if t.dtor.Joined? {
      CalmStep(s, t, Other(StopFinal));
      t := OtherStep(t, StopFinal);
    }
  }

  /** Whatever happens after the signal, short of a new submission or a spurious wakeup, the destructor can
      still finish. */
  ghost predicate AlwaysFinishes(u: State) {
    forall t :: CalmLeads(u, t) ==> exists end :: CalmLeads(t, end) && end.dtor.Destroyed?
  }

  /** Every step of a worker brings the workers nearer to their end, and some worker can step, without a
      spurious wakeup, while one is left; so without a losing window all threads leave. */
  lemma ShutdownProgress(s: State, t: State)
    requires Reachable(s) && s.dtor.Stopping? && AllIdle(s) && Shape(s) && (forall w :: !LosingWindow(s, w))
    requires CalmLeads(OtherStep(s, StopSignal), t)
    ensures Shape(t) && forall v, act :: WorkEnabled(t, v, act) ==> Distance(WorkStep(t, v, act)) < Distance(t)
    ensures (exists w :: 0 <= w < |t.workers| && !t.workers[w].Gone?) ==>
              exists v, act :: WorkEnabled(t, v, act) && !act.SpuriousWake?
  {
    var u := NoLosingWindowIsAlert(s);
    var acts :| Runs(u, acts, t) && Calm(acts);
    RunsKeepAlert(u, acts, t);
    forall v, act | WorkEnabled(t, v, act) ensures Distance(WorkStep(t, v, act)) < Distance(t) {
      WorkComesNearer(t, v, act);
    }
    if w :| 0 <= w < |t.workers| && !t.workers[w].Gone? {
      var v := SomeoneMoves(t, w);
      assert Sees(t, t.workers[w]);
    }
  }

  /** The destructor hangs for want of its signal exactly when there is a losing window. */
  lemma DestructorFinishesIff(s: State)
    requires Reachable(s) && s.dtor.Stopping? && AllIdle(s) && Shape(s)
    ensures AlwaysFinishes(OtherStep(s, StopSignal)) <==> forall w :: !LosingWindow(s, w)
  {
    if w: nat :| LosingWindow(s, w) {
      LosingWindowLoses(s, w);
      var u := OtherStep(s, StopSignal);
      var t :| CalmLeads(u, t) && Shape(t) && w < |t.workers| && t.workers[w].Asleep? && t.dtor.Signalled?;
      forall end | CalmLeads(t, end) ensures !end.dtor.Destroyed? {
        var acts :| Runs(t, acts, end) && Calm(acts);
        assert NoRescue(acts, w) by {
          assert forall k :: 0 <= k < |acts| ==> CalmAction(acts[k]);
        }
        LostWorkerHangsDestructor(t, acts, end, w);
      }
    } else {
      var u := NoLosingWindowIsAlert(s);
      forall t | CalmLeads(u, t) ensures exists end :: CalmLeads(t, end) && end.dtor.Destroyed? {
        var acts :| Runs(u, acts, t) && Calm(acts);
        RunsKeepAlert(u, acts, t);
        DtorStaysAfter(u, acts, t);
        var end := AlertFinishes(t);
      }
    }
  }

  lemma {:induction false} DtorStaysAfter(s: State, acts: seq<Action>, t: State)
    requires Shape(s) && Runs(s, acts, t) && Calm(acts) && !s.dtor.Alive?
    ensures !t.dtor.Alive?
    decreases |acts|
  {
    if acts != [] {
      assert CalmAction(acts[0]);
      StepKeepsShapeOf(s, acts[0]);
      if acts[0].Work? {
        WorkFlags(s, acts[0].w, acts[0].wa);
      }
      assert forall k :: 0 <= k < |acts| - 1 ==> acts[1..][k] == acts[k + 1];
      DtorStaysAfter(Step(s, acts[0]), acts[1..], t);
    }
  }

  /** No producer acts and worker w does not wake up by itself. */
  ghost predicate NoRescue(acts: seq<Action>, w: nat) {
    forall k :: 0 <= k < |acts| ==> !acts[k].Submit? && acts[k] != Work(w, SpuriousWake)
  }

  /** And a worker that lost it sleeps on: the destructor never gets past joining its threads. */
  lemma {:induction false} LostWorkerHangsDestructor(s: State, acts: seq<Action>, t: State, w: nat)
    requires Shape(s) && Runs(s, acts, t) && NoRescue(acts, w)
    requires w < |s.workers| && s.workers[w].Asleep? && s.dtor.Signalled?
    ensures w < |t.workers| && t.workers[w].Asleep? && t.dtor.Signalled?
    decreases |acts|
  {
    if acts != [] {
      StepKeepsShapeOf(s, acts[0]);
      assert NoRescue(acts[1..], w) by {
        assert forall k :: 0 <= k < |acts| - 1 ==> acts[1..][k] == acts[k + 1];
      }
      LostWorkerHangsDestructor(Step(s, acts[0]), acts[1..], t, w);
    }
  }

  /** It does happen, whatever the configuration: one worker tests running_, the destructor stores and
      signals, the worker waits. */
  lemma ShutdownSignalCanBeLost(cfg: Config)
    requires 0 < cfg.threads
    ensures exists s :: Reachable(s) && s.cfg == cfg && s.dtor.Signalled? && SomeAsleep(s)
  {
    var a := Init(cfg);
    InitStop(cfg);
    LeadsHere(a);
    LeadsOneStep(a, a, Work(0, Loop));
    var b := WorkStep(a, 0, Loop);
    WorkKeepsShape(a, 0, Loop);
    LeadsOneStep(a, b, Work(0, LockToTest));
    var c := WorkStep(b, 0, LockToTest);
    WorkKeepsShape(b, 0, LockToTest);
    LeadsOneStep(a, c, Work(0, SeeRunning));
    var d := WorkStep(c, 0, SeeRunning);
    WorkKeepsShape(c, 0, SeeRunning);
    LeadsOneStep(a, d, Other(StopStore));
    var e := OtherStep(d, StopStore);
    OtherKeepsShape(d, StopStore);
    LeadsOneStep(a, e, Other(StopSignal));
    var f := OtherStep(e, StopSignal);
    OtherKeepsShape(e, StopSignal);
    LeadsOneStep(a, f, Work(0, SeeCount));
    var g := WorkStep(f, 0, SeeCount);
    WorkKeepsShape(f, 0, SeeCount);
    LeadsOneStep(a, g, Work(0, Wait));
    var h := WorkStep(g, 0, Wait);
    assert h.workers[0].Asleep? && h.cfg == cfg;
  }
}
