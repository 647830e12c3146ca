/** With which outcome a request is settled, told by who removed its entry. */
module CorrelationOutcomes {
  import opened Sums
  import opened CorrelationModel

  /** The entry of request k was removed by its timer, or by a response. */
  datatype Removal = Removal(k: nat, how: How)

  /** The entry that an action removes, if it does. */
  ghost function RemovedAt(s: State, a: Action): set<Removal>
    requires Enabled(s, a)
  {
    match a
    case Fire(k) => if s.requests[k].cid in s.pending then {Removal(k, TimedOut)} else {}
    case Respond(cid) => if cid in s.pending then {Removal(s.pending[cid], Answered)} else {}
    case _ => {}
  }

  ghost function Removals(s: State, acts: seq<Action>, t: State): set<Removal>
    requires Runs(s, acts, t)
    decreases |acts|
  {
    if acts == [] then {} else RemovedAt(s, acts[0]) + Removals(Step(s, acts[0]), acts[1..], t)
  }

  /** Whoever has settled a request, or is about to, has removed its entry. */
  ghost predicate Traced(s: State, removed: set<Removal>) {
    && (forall i :: 0 <= i < |s.settled| ==> Removal(s.settled[i].k, s.settled[i].how) in removed)
    && (forall k :: 0 <= k < |s.requests| && (s.requests[k].timer.Erased? || s.requests[k].timer.Discounted?) ==>
          Removal(k, TimedOut) in removed)
    && (!s.reader.Idle? ==> Removal(s.reader.k, Answered) in removed)
  }

  /** An entry that was removed is gone, and was removed once. */
  ghost predicate RemovedOnce(s: State, removed: set<Removal>) {
    && (forall r :: r in removed ==> r.k < |s.requests| && !s.requests[r.k].stage.Drawn? && r.k + 1 !in s.pending)
    && (forall k :: !(Removal(k, TimedOut) in removed && Removal(k, Answered) in removed))
    && (forall r :: r in removed && r.how.TimedOut? ==>
          r.k < |s.requests| && !s.requests[r.k].timer.Waiting?)
  }

  lemma RequesterKeepsTraced(s: State, a: Action, removed: set<Removal>)
    requires a.Draw? || a.Insert? || a.Count? || a.Arm?
    requires Ids(s) && Enabled(s, a) && Traced(s, removed)
    ensures Traced(Step(s, a), removed)
  {
  }

  lemma TimerKeepsTraced(s: State, a: Action, removed: set<Removal>)
    requires a.Fire? || a.TimerDiscount? || a.TimerCall?
    requires Ids(s) && Enabled(s, a) && Traced(s, removed)
    ensures Traced(Step(s, a), removed + RemovedAt(s, a))
  {
  }

  lemma ReaderKeepsTraced(s: State, a: Action, removed: set<Removal>)
    requires a.Respond? || a.ReaderDiscount? || a.ReaderCall?
    requires Ids(s) && Enabled(s, a) && Traced(s, removed)
    ensures Traced(Step(s, a), removed + RemovedAt(s, a))
  {
  }

  lemma RequesterKeepsOnce(s: State, a: Action, removed: set<Removal>)
    requires a.Draw? || a.Insert? || a.Count? || a.Arm?
    requires Ids(s) && Enabled(s, a) && RemovedOnce(s, removed)
    ensures RemovedOnce(Step(s, a), removed)
  {
  }

  lemma TimerKeepsOnce(s: State, a: Action, removed: set<Removal>)
    requires a.Fire? || a.TimerDiscount? || a.TimerCall?
    requires Ids(s) && Enabled(s, a) && RemovedOnce(s, removed)
    ensures RemovedOnce(Step(s, a), removed + RemovedAt(s, a))
  {
  }

  lemma ReaderKeepsOnce(s: State, a: Action, removed: set<Removal>)
    requires a.Respond? || a.ReaderDiscount? || a.ReaderCall?
    requires Ids(s) && Enabled(s, a) && RemovedOnce(s, removed)
    ensures RemovedOnce(Step(s, a), removed + RemovedAt(s, a))
  {
  }

  lemma StepKeepsTraced(s: State, a: Action, removed: set<Removal>)
    requires Ids(s) && Enabled(s, a) && Traced(s, removed) && RemovedOnce(s, removed)
    ensures Traced(Step(s, a), removed + RemovedAt(s, a)) && RemovedOnce(Step(s, a), removed + RemovedAt(s, a))
  {
    if a.Draw? || a.Insert? || a.Count? || a.Arm? {
      RequesterKeepsTraced(s, a, removed);
      RequesterKeepsOnce(s, a, removed);
      assert removed + RemovedAt(s, a) == removed;
    } else if a.Fire? || a.TimerDiscount? || a.TimerCall? {
      TimerKeepsTraced(s, a, removed);
      TimerKeepsOnce(s, a, removed);
    } else {
      ReaderKeepsTraced(s, a, removed);
      ReaderKeepsOnce(s, a, removed);
    }
  }

  lemma {:induction false} RunsKeepTraced(s: State, acts: seq<Action>, t: State, removed: set<Removal>)
    requires Inv(s) && Runs(s, acts, t) && NoWrap(t) && Traced(s, removed) && RemovedOnce(s, removed)
    ensures Traced(t, removed + Removals(s, acts, t)) && RemovedOnce(t, removed + Removals(s, acts, t))
    decreases |acts|
  {
    if acts == [] {
      assert removed + {} == removed;
    } else {
      var u := Step(s, acts[0]);
      RequestsGrow(u, acts[1..], t);
      StepKeepsInv(s, acts[0]);
      StepKeepsTraced(s, acts[0], removed);
      hide Traced, RemovedOnce, Inv, Step, RemovedAt, Ids;
      RunsKeepTraced(u, acts[1..], t, removed + RemovedAt(s, acts[0]));
      Together(removed, RemovedAt(s, acts[0]), Removals(u, acts[1..], t));
    }
  }

  lemma Together(a: set<Removal>, b: set<Removal>, c: set<Removal>)
    ensures a + b + c == a + (b + c)
  {
  }

  lemma InitTraced()
    ensures Inv(Init()) && Traced(Init(), {}) && RemovedOnce(Init(), {})
  {
  }

  // ---------- main results ----------

  /** A settled request was settled as timed out exactly if its own timer removed its entry, and as answered
      exactly if a response did; while its timer has not fired it is not settled as timed out. */
  lemma SettledAsRemoved(acts: seq<Action>, t: State, i: nat)
    requires Runs(Init(), acts, t) && NoWrap(t) && i < |t.settled|
    ensures var x := t.settled[i];
      && (x.how.TimedOut? <==> Removal(x.k, TimedOut) in Removals(Init(), acts, t))
      && (x.how.Answered? <==> Removal(x.k, Answered) in Removals(Init(), acts, t))
      && x.k < |t.requests| && (t.requests[x.k].timer.Waiting? ==> x.how.Answered?)
  {
    hide Inv, Traced, RemovedOnce, Init;
    InitTraced();
    RunsKeepTraced(Init(), acts, t, {});
    var removed := Removals(Init(), acts, t);
    assert {} + removed == removed;
    OutcomeTraced(t, removed, i);
  }

  lemma OutcomeTraced(t: State, removed: set<Removal>, i: nat)
    requires Traced(t, removed) && RemovedOnce(t, removed) && i < |t.settled|
    ensures var x := t.settled[i];
      && (x.how.TimedOut? <==> Removal(x.k, TimedOut) in removed)
      && (x.how.Answered? <==> Removal(x.k, Answered) in removed)
      && x.k < |t.requests| && (t.requests[x.k].timer.Waiting? ==> x.how.Answered?)
  {
    assert Removal(t.settled[i].k, t.settled[i].how) in removed;
  }

  /** A response to a pending request with a handler calls that handler with the response, and the message
      handler does not see it; with a null handler it is the other way round. */
  lemma AnswerCalls(s: State, cid: nat)
    requires Reachable(s) && s.reader.Idle? && cid in s.pending
    ensures var t := Answer(s, cid);
      && 0 < cid <= |s.requests| && t.reader.Idle? && t.pending == s.pending - {cid}
      && t.settled == s.settled + [Settled(cid - 1, Answered, s.requests[cid - 1].hasHandler)]
      && t.unmatched == if s.requests[cid - 1].hasHandler then s.unmatched else s.unmatched + [cid]
  {
    ReachableInv(s);
  }

  /** A timer that removed its entry calls the handler with the timeout. */
  lemma TimeoutCalls(s: State, k: nat)
    requires Reachable(s) && Enabled(s, Fire(k)) && k + 1 in s.pending
    ensures var u := Step(s, Fire(k));
      && Enabled(u, TimerDiscount(k))
      && var v := Step(u, TimerDiscount(k));
      && Enabled(v, TimerCall(k))
      && var t := Step(v, TimerCall(k));
      && t.settled == s.settled + [Settled(k, TimedOut, s.requests[k].hasHandler)]
      && t.pending == s.pending - {k + 1}
  {
    ReachableInv(s);
  }

  /** A request is pending under its own id from the moment it is inserted. */
  lemma InsertedIsPending(s: State, k: nat)
    requires Reachable(s) && Enabled(s, Insert(k))
    ensures Step(s, Insert(k)).pending == s.pending[k + 1 := k] && k + 1 !in s.pending
  {
    ReachableInv(s);
    assert OnePlace(s, k);
  }

  /** The handlers of the requests that a run makes, in order. */
  ghost function HandlersDrawn(acts: seq<Action>): seq<bool> {
    if acts == [] then [] else (if acts[0].Draw? then [acts[0].hasHandler] else []) + HandlersDrawn(acts[1..])
  }

  ghost function Handlers(s: State): seq<bool> {
    seq(|s.requests|, k requires 0 <= k < |s.requests| => s.requests[k].hasHandler)
  }

  lemma StepDraws(s: State, a: Action)
    requires Enabled(s, a)
    ensures Handlers(Step(s, a)) == Handlers(s) + if a.Draw? then [a.hasHandler] else []
  {
  }

  /** A run makes a request for every id it draws, with the handler it was given. */
  lemma {:induction false} RunsDraw(s: State, acts: seq<Action>, t: State)
    requires Runs(s, acts, t)
    ensures Handlers(t) == Handlers(s) + HandlersDrawn(acts)
    decreases |acts|
  {
    if acts != [] {
      StepDraws(s, acts[0]);
      RunsDraw(Step(s, acts[0]), acts[1..], t);
    }
  }
}
