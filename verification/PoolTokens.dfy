/** What a cancellation token does to a submission, told by the actions of a run. */
module PoolTokens {
  import opened Sums
  import opened PoolModel
  import PoolTasks

  // ---------- the two checks ----------

  /** The check before the enqueue: a set token resolves the promise at once and enqueues nothing; with a
      clear token, or none, the submission is entered with its promise unset. */
  lemma TokenAtBegin(s: State, p: nat, token: Option<nat>)
    requires Shape(s) && SubmitEnabled(s, p, Begin(WithResult(token)))
    ensures var t := SubmitStep(s, p, Begin(WithResult(token)));
      if token.Some? && token.value in s.mem.cancelled
      then t.mem.promises == s.mem.promises + [Cancelled] && t.producers == s.producers
      else && t.mem.promises == s.mem.promises + [Unset]
           && t.producers == s.producers[p := Entered(Task(|s.mem.promises|, WithResult(token)))]
  {
  }

  /** The check before the execution: a set token cancels the promise and fn is not started; with a clear
      token, or none, fn starts and the promise stays unset. */
  lemma TokenAtWrap(s: State, w: nat, token: Option<nat>)
    requires Reachable(s) && Shape(s) && WorkEnabled(s, w, Wrap) && s.workers[w].task.kind == WithResult(token)
    ensures var t := WorkStep(s, w, Wrap); var task := s.workers[w].task;
      if token.Some? && token.value in s.mem.cancelled
      then PoolTasks.PromiseOf(t, task.id).Cancelled? && !t.workers[w].Executing? && t.hist.ran == s.hist.ran
      else && PoolTasks.PromiseOf(t, task.id).Unset? && t.workers[w] == Executing(task)
           && t.hist.ran == s.hist.ran + [task.id]
  {
    PoolTasks.ReachableInv(s);
    assert PoolTasks.PromiseAccounted(s, s.workers[w].task.id);
    PoolTasks.ResolvesUnset(s, w);
  }

  // ---------- over a run ----------

  /** The kinds of the submissions that a run begins, in order; a submission's place here is its id. */
  ghost function KindsBegun(acts: seq<Action>): seq<Kind> {
    if acts == [] then [] else KindsBegun(acts[..|acts| - 1]) + Begins(acts[|acts| - 1])
  }

  ghost function Begins(a: Action): seq<Kind> { if a.Submit? && a.sa.Begin? then [a.sa.kind] else [] }

  /** The tokens that a run sets, at some time. */
  ghost function TokensSet(acts: seq<Action>): set<nat> {
    if acts == [] then {} else TokensSet(acts[..|acts| - 1]) + Sets(acts[|acts| - 1])
  }

  ghost function Sets(a: Action): set<nat> {
    if a.Other? && a.oa.SetToken? && a.oa.on then {a.oa.token} else {}
  }

  ghost predicate OfKind(t: Task, kinds: seq<Kind>) { t.id < |kinds| && kinds[t.id] == t.kind }

  ghost predicate Carries(pc: SubmitPc) { pc.Entered? || pc.Admitted? || pc.Drawn? }

  /** Every task on its way has the kind with which it was submitted. */
  ghost predicate Kinded(s: State, kinds: seq<Kind>) {
    && |kinds| == |s.mem.promises|
    && (forall p :: 0 <= p < |s.producers| && Carries(s.producers[p]) ==> OfKind(s.producers[p].task, kinds))
    && (forall q {:trigger s.mem.queues[q]} :: 0 <= q < |s.mem.queues| ==> AllOfKind(s.mem.queues[q], kinds))
    && (forall w :: 0 <= w < |s.workers| && PoolTasks.InHand(s.workers[w]) ==> OfKind(s.workers[w].task, kinds))
  }

  ghost predicate AllOfKind(q: seq<Item>, kinds: seq<Kind>) { forall i :: 0 <= i < |q| ==> OfKind(q[i].task, kinds) }

  ghost predicate HasToken(kind: Kind, tokens: set<nat>) {
    kind.WithResult? && kind.token.Some? && kind.token.value in tokens
  }

  /** Only tokens among these are set, and only tasks with such a token have been cancelled. */
  ghost predicate CancelledBy(s: State, kinds: seq<Kind>, tokens: set<nat>) {
    && s.mem.cancelled <= tokens && |kinds| == |s.mem.promises|
    && forall id :: 0 <= id < |s.mem.promises| && s.mem.promises[id].Cancelled? ==> HasToken(kinds[id], tokens)
  }

  lemma SubmitKeepsKinds(s: State, p: nat, act: SubmitAct, kinds: seq<Kind>)
    requires Shape(s) && SubmitEnabled(s, p, act) && Kinded(s, kinds)
    ensures Kinded(SubmitStep(s, p, act), kinds + Begins(Submit(p, act)))
  {
    var t := SubmitStep(s, p, act);
    SubmitCarries(s, p, act);
    hide SubmitStep, SubmitEnabled, Shape;
    var more := kinds + Begins(Submit(p, act));
    assert forall x: Task :: OfKind(x, kinds) ==> OfKind(x, more);
    forall q | 0 <= q < |t.mem.queues| ensures AllOfKind(t.mem.queues[q], more) {
      assert AllOfKind(s.mem.queues[q], kinds);
    }
  }

  /** What a producer carries is what it began, and what it pushes is what it carries. */
  lemma SubmitCarries(s: State, p: nat, act: SubmitAct)
    requires Shape(s) && SubmitEnabled(s, p, act)
    ensures var t := SubmitStep(s, p, act); var pc := s.producers[p]; var pc' := t.producers[p];
      && t.producers == s.producers[p := pc'] && |t.mem.promises| == |s.mem.promises| + |Begins(Submit(p, act))|
      && t.workers == (if act.SignalAll? then WakeAll(s.workers) else s.workers)
      && (Carries(pc') ==> if act.Begin? then pc'.task == Task(|s.mem.promises|, act.kind)
                           else Carries(pc) && pc'.task == pc.task)
      && |t.mem.queues| == |s.mem.queues|
      && forall q :: 0 <= q < |s.mem.queues| ==>
           || t.mem.queues[q] == s.mem.queues[q]
           || (&& Carries(pc) && |t.mem.queues[q]| == |s.mem.queues[q]| + 1
               && t.mem.queues[q][..|s.mem.queues[q]|] == s.mem.queues[q]
               && t.mem.queues[q][|s.mem.queues[q]|].task == pc.task)
  {
  }

  lemma WorkKeepsKinds(s: State, w: nat, act: WorkAct, kinds: seq<Kind>)
    requires Shape(s) && WorkEnabled(s, w, act) && Kinded(s, kinds)
    ensures Kinded(WorkStep(s, w, act), kinds)
  {
    var t := WorkStep(s, w, act);
    if act.Wrap? || act.Finish? {
      PoolTasks.WorkWraps(s, w, act);
      assert s.workers[w].Wrapping? || s.workers[w].Executing?;
      hide WorkStep, WorkEnabled, Shape, IsFired;
    } else {
      PoolTasks.WorkPassesOn(s, w, act);
      if t.workers[w].Got? {
        var q := if act.PopOwn? then w else act.victim;
        TakenChanges(s, w, q, act.Steal?);
        assert AllOfKind(s.mem.queues[q], kinds);
        hide WorkStep, WorkEnabled, Shape, Taken;
        assert AllOfKind(RestOf(s.mem.queues[q], act.Steal?), kinds);
      }
      hide WorkStep, WorkEnabled, Shape;
    }
  }

  lemma SubmitKeepsCancelled(s: State, p: nat, act: SubmitAct, kinds: seq<Kind>, tokens: set<nat>)
    requires Shape(s) && SubmitEnabled(s, p, act) && CancelledBy(s, kinds, tokens)
    ensures CancelledBy(SubmitStep(s, p, act), kinds + Begins(Submit(p, act)), tokens)
  {
    PoolTasks.SubmitRecords(s, p, act);
    assert SubmitStep(s, p, act).mem.cancelled == s.mem.cancelled;
    hide SubmitStep, SubmitEnabled, Shape;
  }

  lemma WorkKeepsCancelled(s: State, w: nat, act: WorkAct, kinds: seq<Kind>, tokens: set<nat>)
    requires Shape(s) && WorkEnabled(s, w, act) && Kinded(s, kinds) && CancelledBy(s, kinds, tokens)
    ensures CancelledBy(WorkStep(s, w, act), kinds, tokens)
  {
    assert WorkStep(s, w, act).mem.cancelled == s.mem.cancelled;
    if act.Wrap? || act.Finish? {
      PoolTasks.WorkWraps(s, w, act);
      assert s.workers[w].Wrapping? || s.workers[w].Executing?;
      assert OfKind(s.workers[w].task, kinds);
    } else {
      PoolTasks.WorkPassesOn(s, w, act);
    }
    hide WorkStep, WorkEnabled, Shape, Kinded;
  }

  lemma StepKeepsTokens(s: State, a: Action, kinds: seq<Kind>, tokens: set<nat>)
    requires Shape(s) && Enabled(s, a) && Kinded(s, kinds) && CancelledBy(s, kinds, tokens)
    ensures Shape(Step(s, a))
    ensures Kinded(Step(s, a), kinds + Begins(a)) && CancelledBy(Step(s, a), kinds + Begins(a), tokens + Sets(a))
  {
    assert kinds + [] == kinds;
    match a
    case Submit(p, act) =>
      SubmitKeepsShape(s, p, act);
      SubmitKeepsKinds(s, p, act, kinds);
      SubmitKeepsCancelled(s, p, act, kinds, tokens);
      assert tokens + {} == tokens;
    case Work(w, act) =>
      WorkKeepsShape(s, w, act);
      WorkKeepsKinds(s, w, act, kinds);
      WorkKeepsCancelled(s, w, act, kinds, tokens);
      assert tokens + {} == tokens;
    case Other(act) =>
      OtherKeepsShape(s, act);
      OtherKeepsTokens(s, act, kinds, tokens);
  }

  lemma OtherKeepsTokens(s: State, act: OtherAct, kinds: seq<Kind>, tokens: set<nat>)
    requires Shape(s) && OtherEnabled(s, act) && Kinded(s, kinds) && CancelledBy(s, kinds, tokens)
    ensures Kinded(OtherStep(s, act), kinds) && CancelledBy(OtherStep(s, act), kinds, tokens + Sets(Other(act)))
  {
  }

  lemma {:induction false} RunsKeepTokens(cfg: Config, acts: seq<Action>, t: State)
    requires 0 < cfg.threads && Runs(Init(cfg), acts, t)
    ensures Shape(t) && Kinded(t, KindsBegun(acts)) && CancelledBy(t, KindsBegun(acts), TokensSet(acts))
    decreases |acts|
  {
    if acts == [] {
      InitTokens(cfg);
    } else {
      var front, a := acts[..|acts| - 1], acts[|acts| - 1];
      assert acts == front + [a];
      var s := LastStep(Init(cfg), front, a, t);
      RunsKeepTokens(cfg, front, s);
      StepKeepsTokens(s, a, KindsBegun(front), TokensSet(front));
    }
  }

  lemma InitTokens(cfg: Config)
    ensures Kinded(Init(cfg), []) && CancelledBy(Init(cfg), [], {})
  {
  }

  /** The state before the last action. */
  lemma {:induction false} LastStep(s: State, acts: seq<Action>, a: Action, t: State) returns (u: State)
    requires Runs(s, acts + [a], t)
    ensures Runs(s, acts, u) && Shape(u) && Enabled(u, a) && t == Step(u, a)
    decreases |acts|
  {
    if acts == [] {
      u := s;
      assert (acts + [a])[1..] == [];
    } else {
      assert (acts + [a])[1..] == acts[1..] + [a] && (acts + [a])[0] == acts[0];
      u := LastStep(Step(s, acts[0]), acts[1..], a, t);
    }
  }

  /** Over any run, a promise holds the cancellation only if its submission came with a token and the run
      sets that token; so a token that is never set cancels nothing. */
  lemma CancelledOnlyBySetToken(cfg: Config, acts: seq<Action>, t: State, id: nat)
    requires 0 < cfg.threads && Runs(Init(cfg), acts, t) && id < |t.mem.promises| && t.mem.promises[id].Cancelled?
    ensures id < |KindsBegun(acts)| && KindsBegun(acts)[id].WithResult? && KindsBegun(acts)[id].token.Some?
    ensures exists k :: 0 <= k < |acts| && acts[k] == Other(SetToken(KindsBegun(acts)[id].token.value, true))
  {
    RunsKeepTokens(cfg, acts, t);
    SetBySomeAction(acts, KindsBegun(acts)[id].token.value);
  }

  lemma {:induction false} SetBySomeAction(acts: seq<Action>, token: nat)
    requires token in TokensSet(acts)
    ensures exists k :: 0 <= k < |acts| && acts[k] == Other(SetToken(token, true))
  {
    var front := acts[..|acts| - 1];
    if token in TokensSet(front) {
      SetBySomeAction(front, token);
      var k :| 0 <= k < |front| && front[k] == Other(SetToken(token, true));
      assert acts[k] == front[k];
    } else {
      assert acts[|acts| - 1] == Other(SetToken(token, true));
    }
  }

  /** What a run last stored in a token. */
  ghost function LastStored(acts: seq<Action>, token: nat): bool {
    if acts == [] then false
    else
      var a := acts[|acts| - 1];
      if a.Other? && a.oa.SetToken? && a.oa.token == token then a.oa.on
      else LastStored(acts[..|acts| - 1], token)
  }

  lemma StepStores(s: State, a: Action, token: nat)
    requires Shape(s) && Enabled(s, a)
    ensures token in Step(s, a).mem.cancelled <==>
              if a.Other? && a.oa.SetToken? && a.oa.token == token then a.oa.on else token in s.mem.cancelled
  {
  }

  /** A token reads as what was last stored in it, and as clear before that. */
  lemma {:induction false} TokenHoldsLastStored(cfg: Config, acts: seq<Action>, t: State, token: nat)
    requires Runs(Init(cfg), acts, t)
    ensures token in t.mem.cancelled <==> LastStored(acts, token)
    decreases |acts|
  {
    if acts != [] {
      var front, a := acts[..|acts| - 1], acts[|acts| - 1];
      assert acts == front + [a];
      var s := LastStep(Init(cfg), front, a, t);
      TokenHoldsLastStored(cfg, front, s, token);
      StepStores(s, a, token);
    }
  }
}
