/** What the destructor leaves in the queues, exactly. */
module PoolDrain {
  import opened Sums
  import opened PoolModel
  import opened PoolShutdown
  import opened PoolSignal
  import PoolCounting

  // ---------- runs without submissions ----------

  /** No producer acts; sleepers may wake up by themselves. */
  ghost predicate Quiet(acts: seq<Action>) { forall k :: 0 <= k < |acts| ==> !acts[k].Submit? }

  ghost predicate QuietLeads(s: State, t: State) { exists acts :: Runs(s, acts, t) && Quiet(acts) }

  lemma QuietHere(s: State)
    ensures QuietLeads(s, s)
  {
    assert Runs(s, [], s) && Quiet([]);
  }

  lemma QuietStep(s: State, t: State, a: Action)
    requires QuietLeads(s, t) && Shape(t) && Enabled(t, a) && !a.Submit?
    ensures QuietLeads(s, Step(t, a))
  {
    var acts :| Runs(s, acts, t) && Quiet(acts);
    RunsSnoc(s, acts, t, a);
    assert Quiet(acts + [a]);
  }

  // ---------- what is sure to be taken ----------

  /** One task if the worker is still bound to look into its own queue: it is past its test of running_, and
      not past that look, unless stealing can only lead it back there. */
  ghost function SureToTake(s: State, pc: WorkPc): nat {
    if Committed(pc) && (!pc.Stealing? || s.cfg.threads == 1) then 1 else 0
  }

  ghost predicate Covered(s: State, q: nat)
    requires Shape(s) && q < |s.mem.queues|
  {
    |s.mem.queues[q]| <= SureToTake(s, s.workers[q])
  }

  /** No queue holds more than what its own worker is sure to take. */
  ghost predicate AllCovered(s: State)
    requires Shape(s)
  {
    forall q :: 0 <= q < |s.mem.queues| ==> Covered(s, q)
  }

  /** Once stopped, a worker becomes or ceases to be bound only by popping. */
  lemma WorkStaysBound(s: State, v: nat, act: WorkAct)
    requires Shape(s) && WorkEnabled(s, v, act) && !s.mem.running && !act.PopOwn? && !act.Steal?
    ensures var t := WorkStep(s, v, act);
      && t.cfg == s.cfg && t.mem.queues == s.mem.queues
      && SureToTake(t, t.workers[v]) == SureToTake(s, s.workers[v])
  {
  }

  lemma WorkKeepsCovered(s: State, v: nat, act: WorkAct)
    requires Shape(s) && WorkEnabled(s, v, act) && !s.mem.running && AllCovered(s)
    ensures Shape(WorkStep(s, v, act)) && AllCovered(WorkStep(s, v, act))
  {
    var t := WorkStep(s, v, act);
    WorkKeepsShape(s, v, act);
    WorkMoves(s, v, act);
    if act.PopOwn? || act.Steal? {
      PopMoves(s, v, act);
      assert Covered(s, v);
      hide WorkStep;
      forall q | 0 <= q < |t.mem.queues| ensures Covered(t, q) {
        assert Covered(s, q);
      }
    } else {
      WorkStaysBound(s, v, act);
      hide WorkStep, WorkEnabled, SureToTake;
      forall q | 0 <= q < |t.mem.queues| ensures Covered(t, q) {
        assert Covered(s, q);
      }
    }
  }

  /** Waking the sleepers binds nobody and frees nobody. */
  lemma OtherKeepsBound(s: State, act: OtherAct)
    requires Shape(s) && OtherEnabled(s, act)
    ensures var t := OtherStep(s, act);
      && Shape(t) && t.cfg == s.cfg && t.mem.queues == s.mem.queues && t.producers == s.producers
      && forall w :: 0 <= w < |s.workers| ==> SureToTake(t, t.workers[w]) == SureToTake(s, s.workers[w])
  {
    OtherKeepsShape(s, act);
  }

  lemma OtherKeepsCovered(s: State, act: OtherAct)
    requires Shape(s) && OtherEnabled(s, act) && AllCovered(s)
    ensures Shape(OtherStep(s, act)) && AllCovered(OtherStep(s, act))
  {
    OtherKeepsBound(s, act);
    hide OtherStep, SureToTake;
    forall q | 0 <= q < |s.mem.queues| ensures Covered(OtherStep(s, act), q) {
      assert Covered(s, q);
    }
  }

  lemma {:induction false} RunsKeepCovered(s: State, acts: seq<Action>, t: State)
    requires StopInv(s) && !s.mem.running && AllCovered(s) && Runs(s, acts, t) && Quiet(acts)
    ensures StopInv(t) && AllCovered(t)
    decreases |acts|
  {
    if acts != [] {
      assert !acts[0].Submit?;
      match acts[0] {
        case Work(v, act) =>
          WorkKeepsCovered(s, v, act);
          WorkKeepsStop(s, v, act);
          WorkFlags(s, v, act);
        case Other(act) =>
          OtherKeepsCovered(s, act);
          OtherKeepsStop(s, act);
      }
      assert forall k :: 0 <= k < |acts| - 1 ==> acts[1..][k] == acts[k + 1];
      hide WorkStep, OtherStep, AllCovered;
      RunsKeepCovered(Step(s, acts[0]), acts[1..], t);
    }
  }

  /** When all workers have left, covered queues are empty. */
  lemma CoveredAtTheEnd(s: State)
    requires StopInv(s) && AllCovered(s) && s.dtor.Destroyed?
    ensures Queued(s) == 0
  {
    forall q | 0 <= q < |s.mem.queues| ensures Length(s.mem.queues[q]) == 0 {
      assert Covered(s, q);
    }
    SumZero(Length, s.mem.queues);
  }

  // ---------- a queue that is not covered ----------

  /** Stopped, with idle producers, and queue q holds more than its worker is sure to take. */
  ghost predicate Exposed(s: State, q: nat) {
    PoolCounting.Inv(s) && StopInv(s) && AllIdle(s) && !s.mem.running && q < |s.mem.queues| && !Covered(s, q)
  }

  /** The next step of worker v; a thief looks elsewhere than at queue q if there is anywhere else. */
  ghost function ActAround(s: State, v: nat, q: nat): WorkAct
    requires v < |s.workers|
  {
    if s.workers[v].Stealing? then Steal(if s.cfg.threads == 1 then 0 else if q == 0 then 1 else 0)
    else NextAct(s.workers[v], v)
  }

  lemma ExposedStays(s: State, v: nat, q: nat)
    requires Exposed(s, q) && v < |s.workers| && WorkEnabled(s, v, ActAround(s, v, q))
    ensures Exposed(WorkStep(s, v, ActAround(s, v, q)), q)
  {
    var act := ActAround(s, v, q);
    PoolCounting.StepKeepsInv(s, Work(v, act));
    WorkKeepsStop(s, v, act);
    WorkFlags(s, v, act);
    WorkMoves(s, v, act);
    PoolCounting.WorkFlow(s, v, act);
    if act.PopOwn? || act.Steal? {
      PopMoves(s, v, act);
    } else {
      WorkStaysBound(s, v, act);
    }
    hide WorkStep, PoolCounting.Inv, StopInv;
  }

  /** All workers leave, and queue q stays uncovered. */
  lemma {:induction false} LeaveAround(s0: State, s: State, q: nat) returns (t: State)
    requires QuietLeads(s0, s) && Exposed(s, q)
    ensures QuietLeads(s0, t) && Exposed(t, q) && t.dtor == s.dtor
    ensures forall w :: 0 <= w < |t.workers| ==> t.workers[w].Gone?
    decreases Distance(s)
  {
    if w :| 0 <= w < |s.workers| && !s.workers[w].Gone? {
      var v := SomeoneMoves(s, w);
      var act := ActAround(s, v, q);
      FreeQueues(s);
      QuietStep(s0, s, Work(v, act));
      ExposedStays(s, v, q);
      WorkComesNearer(s, v, act);
      WorkFlags(s, v, act);
      hide WorkStep, Exposed;
      t := LeaveAround(s0, WorkStep(s, v, act), q);
    } else {
      t := s;
    }
  }

  /** The rest of the destructor, once all workers have left. */
  lemma DtorEnds(s0: State, s: State) returns (t: State)
    requires QuietLeads(s0, s) && StopInv(s) && s.dtor.Stopping?
    requires forall w :: 0 <= w < |s.workers| ==> s.workers[w].Gone?
    ensures QuietLeads(s0, t) && t.dtor.Destroyed? && Queued(t) == Queued(s)
  {
    SumZero(StillIn, s.workers);
    QuietStep(s0, s, Other(StopSignal));
    t := OtherStep(s, StopSignal);
    OtherKeepsShape(s, StopSignal);
    QuietStep(s0, t, Other(StopJoin));
    OtherKeepsShape(t, StopJoin);
    t := OtherStep(t, StopJoin);
    QuietStep(s0, t, Other(StopFinal));
    t := OtherStep(t, StopFinal);
  }

  lemma ExposedLeavesBacklog(s: State, q: nat) returns (t: State)
    requires Exposed(s, q) && s.dtor.Stopping?
    ensures QuietLeads(s, t) && t.dtor.Destroyed? && Queued(t) > 0
  {
    QuietHere(s);
    var u := LeaveAround(s, s, q);
    SumElement(Length, u.mem.queues, q);
    t := DtorEnds(s, u);
  }

  // ---------- main result ----------

  /** Whenever the destructor gets to its end, nothing is left queued. */
  ghost predicate SurelyDrained(u: State) {
    forall t :: QuietLeads(u, t) && t.dtor.Destroyed? ==> Queued(t) == 0
  }

  /** With idle producers, the destructor is sure to leave empty queues exactly when, at the moment it clears
      running_, every queue is empty, or holds one task and its own worker has yet to look into it. */
  lemma SurelyDrainedIff(s: State)
    requires Reachable(s) && s.dtor.Alive? && AllIdle(s) && Shape(s)
    ensures SurelyDrained(OtherStep(s, StopStore)) <==> AllCovered(s)
  {
    var u := OtherStep(s, StopStore);
    PoolCounting.ReachableInv(s);
    PoolCounting.StepKeepsInv(s, Other(StopStore));
    ReachableStop(s);
    OtherKeepsStop(s, StopStore);
    OtherKeepsBound(s, StopStore);
    if AllCovered(s) {
      OtherKeepsCovered(s, StopStore);
      forall t | QuietLeads(u, t) && t.dtor.Destroyed? ensures Queued(t) == 0 {
        var acts :| Runs(u, acts, t) && Quiet(acts);
        RunsKeepCovered(u, acts, t);
        CoveredAtTheEnd(t);
      }
    } else {
      var q :| 0 <= q < |s.mem.queues| && !Covered(s, q);
      assert Exposed(u, q);
      var t := ExposedLeavesBacklog(u, q);
    }
  }
}
