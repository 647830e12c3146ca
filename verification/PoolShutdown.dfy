/** Destroying a task processor: which work still starts, and what is left behind. */
module PoolShutdown {
  import opened Sums
  import opened PoolModel
  import PoolCounting
  import PoolTasks

  // ---------- work that starts after the stop ----------

  /** Past the loop's own test of running_, and not yet at a pop. */
  ghost predicate Committed(pc: WorkPc) {
    || pc.Wanting? || pc.TestRunning? || pc.TestCount? || pc.BeforeWait? || pc.Asleep? || pc.Woken?
    || pc.Owning? || pc.Stealing?
  }

  ghost predicate LateBounded(s: State)
    requires Shape(s)
  {
    forall w :: 0 <= w < |s.workers| ==>
      s.hist.latePops[w] <= if s.mem.running || Committed(s.workers[w]) then 0 else 1
  }

  /** active_workers_ counts the workers that have not left. */
  ghost predicate WorkersCounted(s: State) {
    && s.mem.active == Sum(StillIn, s.workers)
    && (s.mem.stopped <==> s.mem.active < |s.workers|)
    && (s.dtor.Joined? || s.dtor.Destroyed? ==> forall w :: 0 <= w < |s.workers| ==> s.workers[w].Gone?)
  }

  ghost predicate StopInv(s: State) {
    && Shape(s) && LateBounded(s) && WorkersCounted(s)
    && (s.mem.running <==> s.dtor.Alive?)
  }

  ghost function Itself(n: nat): nat { n }

  ghost function LatePops(s: State): nat { Sum(Itself, s.hist.latePops) }

  lemma SubmitKeepsStop(s: State, p: nat, act: SubmitAct)
    requires StopInv(s) && SubmitEnabled(s, p, act)
    ensures var t := SubmitStep(s, p, act); StopInv(t) && t.hist.latePops == s.hist.latePops
  {
    SubmitKeepsShape(s, p, act);
    PoolTasks.SubmitRecords(s, p, act);
    PoolCounting.WakeAllKeepsSum(StillIn, s.workers);
  }

  /** A worker's step as the shutdown sees it: the flags, the worker itself, and its pops. */
  lemma WorkFlags(s: State, w: nat, act: WorkAct)
    requires Shape(s) && WorkEnabled(s, w, act)
    ensures var t := WorkStep(s, w, act);
      && t.mem.running == s.mem.running && t.dtor == s.dtor
      && (!act.Leave? ==> t.mem.active == s.mem.active && t.mem.stopped == s.mem.stopped)
  {
  }

  lemma WorkMoves(s: State, w: nat, act: WorkAct)
    requires Shape(s) && WorkEnabled(s, w, act)
    ensures var t := WorkStep(s, w, act);
      && t.workers == s.workers[w := t.workers[w]]
      && !s.workers[w].Gone? && (t.workers[w].Gone? <==> act.Leave?)
      && (t.workers[w].Got? ==> Committed(s.workers[w]) && !Committed(t.workers[w]))
      && (Committed(t.workers[w]) ==> Committed(s.workers[w]) || s.mem.running)
  {
  }

  lemma WorkPops(s: State, w: nat, act: WorkAct)
    requires Shape(s) && WorkEnabled(s, w, act)
    ensures var t := WorkStep(s, w, act);
      t.hist.latePops == (if t.workers[w].Got? && !s.mem.running
                          then s.hist.latePops[w := s.hist.latePops[w] + 1] else s.hist.latePops)
  {
  }

  lemma WorkEffects(s: State, w: nat, act: WorkAct)
    requires Shape(s) && WorkEnabled(s, w, act)
    ensures var t := WorkStep(s, w, act);
      && t.workers == s.workers[w := t.workers[w]] && t.mem.running == s.mem.running && t.dtor == s.dtor
      && (!act.Leave? ==> t.mem.active == s.mem.active && t.mem.stopped == s.mem.stopped)
      && !s.workers[w].Gone? && (t.workers[w].Gone? <==> act.Leave?)
      && t.hist.latePops == (if t.workers[w].Got? && !s.mem.running
                             then s.hist.latePops[w := s.hist.latePops[w] + 1] else s.hist.latePops)
      && (t.workers[w].Got? ==> Committed(s.workers[w]) && !Committed(t.workers[w]))
      && (Committed(t.workers[w]) ==> Committed(s.workers[w]) || s.mem.running)
  {
    WorkFlags(s, w, act);
    WorkMoves(s, w, act);
    WorkPops(s, w, act);
    hide WorkStep, WorkEnabled, Committed;
  }

  lemma LeaveEffects(s: State, w: nat)
    requires Shape(s) && WorkEnabled(s, w, Leave)
    ensures var t := WorkStep(s, w, Leave);
      t.mem.stopped && t.mem.active == if s.mem.active > 0 then s.mem.active - 1 else WORD - 1
  {
  }

  lemma WorkKeepsCount(s: State, w: nat, act: WorkAct)
    requires Shape(s) && WorkersCounted(s) && WorkEnabled(s, w, act)
    ensures WorkersCounted(WorkStep(s, w, act))
  {
    var t := WorkStep(s, w, act);
    WorkEffects(s, w, act);
    if act.Leave? {
      LeaveEffects(s, w);
    }
    hide WorkStep, WorkEnabled;
    SumUpdate(StillIn, s.workers, w, t.workers[w]);
    SumElement(StillIn, s.workers, w);
    SumAtMostLength(StillIn, s.workers);
  }

  lemma WorkKeepsLate(s: State, w: nat, act: WorkAct)
    requires Shape(s) && LateBounded(s) && WorkEnabled(s, w, act)
    ensures var t := WorkStep(s, w, act);
      Shape(t) && LateBounded(t) && t.mem.running == s.mem.running && t.dtor == s.dtor
  {
    WorkKeepsShape(s, w, act);
    WorkEffects(s, w, act);
    hide WorkStep, WorkEnabled, Committed;
  }

  lemma WorkKeepsStop(s: State, w: nat, act: WorkAct)
    requires StopInv(s) && WorkEnabled(s, w, act)
    ensures StopInv(WorkStep(s, w, act))
  {
    hide WorkStep;
    WorkKeepsCount(s, w, act);
    WorkKeepsLate(s, w, act);
  }

  lemma OtherKeepsStop(s: State, act: OtherAct)
    requires StopInv(s) && OtherEnabled(s, act)
    ensures var t := OtherStep(s, act); StopInv(t) && t.hist.latePops == s.hist.latePops
  {
    OtherKeepsShape(s, act);
    PoolCounting.WakeAllKeepsSum(StillIn, s.workers);
    SumZero(StillIn, s.workers);
  }

  lemma StepKeepsStop(s: State, a: Action)
    requires StopInv(s) && Enabled(s, a)
    ensures StopInv(Step(s, a))
  {
    hide SubmitStep, WorkStep, OtherStep;
    match a
    case Submit(p, act) => SubmitKeepsStop(s, p, act);
    case Work(w, act) => WorkKeepsStop(s, w, act);
    case Other(act) => OtherKeepsStop(s, act);
  }

  lemma InitStop(cfg: Config)
    requires 0 < cfg.threads
    ensures StopInv(Init(cfg))
  {
    SumConstant(StillIn, Init(cfg).workers, Top);
  }

  lemma {:induction false} RunsKeepStop(s: State, acts: seq<Action>, t: State)
    requires StopInv(s) && Runs(s, acts, t)
    ensures StopInv(t)
    decreases |acts|
  {
    if acts != [] {
      StepKeepsStop(s, acts[0]);
      RunsKeepStop(Step(s, acts[0]), acts[1..], t);
    }
  }

  lemma ReachableStop(s: State)
    requires Reachable(s)
    ensures StopInv(s)
  {
    InitStop(s.cfg);
    var acts :| Runs(Init(s.cfg), acts, s);
    RunsKeepStop(Init(s.cfg), acts, s);
  }

  lemma WorkLatePops(s: State, w: nat, act: WorkAct)
    requires Shape(s) && WorkEnabled(s, w, act) && !s.mem.running
    ensures var t := WorkStep(s, w, act); LatePops(t) + |s.hist.popLog| == LatePops(s) + |t.hist.popLog|
  {
    var t := WorkStep(s, w, act);
    WorkEffects(s, w, act);
    PoolCounting.WorkMovesQueues(s, w, act);
    hide WorkStep, WorkEnabled, Committed;
    SumUpdate(Itself, s.hist.latePops, w, s.hist.latePops[w] + 1);
  }

  /** After the stop every pop is a late pop, pops and pushes account for the queues, and the
      processor stays stopped. */
  lemma StepWhileStopped(s: State, a: Action)
    requires StopInv(s) && Enabled(s, a) && !s.mem.running
    ensures var t := Step(s, a);
      && StopInv(t) && !t.mem.running
      && LatePops(t) + |s.hist.popLog| == LatePops(s) + |t.hist.popLog|
      && Queued(t) + |t.hist.popLog| + |s.hist.pushLog| == Queued(s) + |s.hist.popLog| + |t.hist.pushLog|
      && |s.hist.pushLog| <= |t.hist.pushLog|
  {
    StepKeepsStop(s, a);
    hide SubmitStep, WorkStep;
    match a
    case Submit(p, act) =>
      SubmitKeepsStop(s, p, act);
      SubmitStaysStopped(s, p, act);
      PoolCounting.SubmitMovesQueues(s, p, act);
    case Work(w, act) =>
      PoolCounting.WorkMovesQueues(s, w, act);
      WorkKeepsLate(s, w, act);
      WorkLatePops(s, w, act);
    case Other(act) =>
      OtherKeepsStop(s, act);
  }

  lemma SubmitStaysStopped(s: State, p: nat, act: SubmitAct)
    requires Shape(s) && SubmitEnabled(s, p, act)
    ensures SubmitStep(s, p, act).mem.running == s.mem.running
    ensures SubmitStep(s, p, act).dtor == s.dtor
  {
  }

  ghost function IsCommitted(pc: WorkPc): nat { if Committed(pc) then 1 else 0 }

  /** Each worker has an allowance: its late pops, and one more while it is on its way to a pop. */
  ghost predicate LateWithin(s: State, allowance: seq<nat>)
    requires Shape(s)
  {
    && |allowance| == |s.workers|
    && forall w :: 0 <= w < |s.workers| ==> s.hist.latePops[w] + IsCommitted(s.workers[w]) <= allowance[w]
  }

  lemma WorkKeepsWithin(s: State, w: nat, act: WorkAct, allowance: seq<nat>)
    requires StopInv(s) && WorkEnabled(s, w, act) && !s.mem.running && LateWithin(s, allowance)
    ensures Shape(WorkStep(s, w, act)) && LateWithin(WorkStep(s, w, act), allowance)
  {
    WorkKeepsShape(s, w, act);
    WorkEffects(s, w, act);
    hide WorkStep, WorkEnabled, Committed;
  }

  lemma StepKeepsWithin(s: State, a: Action, allowance: seq<nat>)
    requires StopInv(s) && Enabled(s, a) && !s.mem.running && LateWithin(s, allowance)
    ensures Shape(Step(s, a)) && LateWithin(Step(s, a), allowance)
  {
    match a
    case Submit(p, act) =>
      SubmitKeepsShape(s, p, act);
      SubmitKeepsStop(s, p, act);
      PoolTasks.SubmitRecords(s, p, act);
    case Work(w, act) => WorkKeepsWithin(s, w, act, allowance);
    case Other(act) => OtherKeepsStop(s, act);
  }

  lemma {:induction false} RunsWhileStopped(s: State, acts: seq<Action>, t: State, allowance: seq<nat>)
    requires StopInv(s) && !s.mem.running && Runs(s, acts, t) && LateWithin(s, allowance)
    ensures StopInv(t) && !t.mem.running && LateWithin(t, allowance)
    ensures LatePops(t) + |s.hist.popLog| == LatePops(s) + |t.hist.popLog|
    ensures Queued(t) + |t.hist.popLog| + |s.hist.pushLog| == Queued(s) + |s.hist.popLog| + |t.hist.pushLog|
    ensures |s.hist.pushLog| <= |t.hist.pushLog|
    decreases |acts|
  {
    if acts != [] {
      StepWhileStopped(s, acts[0]);
      StepKeepsWithin(s, acts[0], allowance);
      hide LateWithin, StopInv;
      RunsWhileStopped(Step(s, acts[0]), acts[1..], t, allowance);
    }
  }

  /** The workers that are past the loop's test of running_ and not yet at a pop. */
  ghost function CommittedWorkers(s: State): nat { Sum(IsCommitted, s.workers) }

  /** After the stop only the workers that were committed to a pop at that moment pop once more, and nobody
      else; of the tasks queued then, all but that many are still queued in every later state. */
  lemma BoundedWorkAfterStop(s: State, t: State)
    requires Reachable(s) && s.dtor.Alive? && Leads(OtherStep(s, StopStore), t)
    ensures |s.hist.popLog| <= |t.hist.popLog| <= |s.hist.popLog| + CommittedWorkers(s)
    ensures Shape(t) && |t.workers| == |s.workers|
    ensures forall w :: 0 <= w < |t.workers| ==> t.hist.latePops[w] <= IsCommitted(s.workers[w])
    ensures Queued(s) <= Queued(t) + CommittedWorkers(s) && CommittedWorkers(s) <= s.cfg.threads
  {
    ReachableStop(s);
    var u := OtherStep(s, StopStore);
    OtherKeepsStop(s, StopStore);
    var acts :| Runs(u, acts, t);
    var allowance := seq(|s.workers|, w requires 0 <= w < |s.workers| => IsCommitted(s.workers[w]));
    SumZero(Itself, s.hist.latePops);
    RunsKeepCfg(u, acts, t);
    RunsWhileStopped(u, acts, t, allowance);
    SumPointwise(Itself, t.hist.latePops, IsCommitted, s.workers);
    SumAtMostLength(IsCommitted, s.workers);
  }

  lemma {:induction false} RunsKeepCfg(s: State, acts: seq<Action>, t: State)
    requires Shape(s) && Runs(s, acts, t)
    ensures Shape(t) && t.cfg == s.cfg
    decreases |acts|
  {
    if acts != [] {
      StepKeepsShapeOf(s, acts[0]);
      RunsKeepCfg(Step(s, acts[0]), acts[1..], t);
    }
  }

  lemma {:induction false} StillInCount(ws: seq<WorkPc>)
    ensures Sum(StillIn, ws) <= |ws|
    ensures Sum(StillIn, ws) < |ws| <==> exists w :: 0 <= w < |ws| && ws[w].Gone?
  {
    if ws != [] {
      StillInCount(ws[1..]);
      assert forall w :: 0 <= w < |ws| - 1 ==> ws[1..][w] == ws[w + 1];
      if w :| 0 <= w < |ws| && ws[w].Gone? {
        assert w > 0 ==> ws[1..][w - 1].Gone?;
      }
    }
  }

  /** stopped_ says that some worker has left, not that all have. */
  lemma StoppedMeans(s: State)
    requires Reachable(s)
    ensures s.mem.stopped <==> exists w :: 0 <= w < |s.workers| && s.workers[w].Gone?
  {
    ReachableStop(s);
    StillInCount(s.workers);
  }

  /** The final callback runs only when every worker has left. */
  lemma FinalCallbackLast(s: State)
    requires Reachable(s) && s.dtor.Destroyed?
    ensures s.mem.active == 0 && s.mem.stopped && !s.mem.running
    ensures forall w :: 0 <= w < |s.workers| ==> s.workers[w].Gone?
  {
    ReachableStop(s);
    SumZero(StillIn, s.workers);
  }

  lemma StepKeepsShapeOf(s: State, a: Action)
    requires Shape(s) && Enabled(s, a)
    ensures Shape(Step(s, a)) && Step(s, a).cfg == s.cfg
  {
    match a
    case Submit(p, act) => SubmitKeepsShape(s, p, act);
    case Work(w, act) => WorkKeepsShape(s, w, act);
    case Other(act) => OtherKeepsShape(s, act);
  }
}
