/** What the write queue's handlers are told, which sends it accepts, and what its closes discard, told by
    the events of a run. */
module WriteOutcomes {
  import opened Sums
  import opened WriteQueue

  // ---------- acceptance ----------

  /** A send is rejected, with its handler told false, exactly when the limit is on and max_queue_size entries
      wait; otherwise it is accepted, behind all that wait. */
  lemma SendRejectedIff(s: State, notify: bool)
    ensures var t := DoOp(s, Send(notify)); var e := Entry(s.hist.next, notify);
      && t.hist.next == s.hist.next + 1
      && if s.limited && s.maxQueue <= |s.queue|
         then && t.hist.rejected == s.hist.rejected + [e] && t.hist.accepted == s.hist.accepted
              && t.queue == s.queue && t.hist.written == s.hist.written
              && t.hist.fired == s.hist.fired + (if notify then [Outcome(e.id, false)] else [])
         else && t.hist.accepted == s.hist.accepted + [e] && t.hist.rejected == s.hist.rejected
              && t.hist.written + t.queue == s.hist.written + s.queue + [e] && t.hist.fired == s.hist.fired
              && t.writing && (s.writing ==> t.hist.written == s.hist.written)
              && (!s.writing ==> |t.hist.written| == |s.hist.written| + 1)
  {
    var e := Entry(s.hist.next, notify);
    var all := s.queue + [e];
    assert [all[0]] + all[1..] == all;
    assert s.hist.written + [all[0]] + all[1..] == s.hist.written + all;
  }

  ghost predicate NeverOffOps(ops: seq<Op>) { forall i :: 0 <= i < |ops| ==> ops[i] != EnableMaxQueue(false) }

  /** The limit is never switched off. */
  ghost predicate NeverOff(e: Event) {
    match e
    case Call(op) => op != EnableMaxQueue(false)
    case Complete(_, _, nested) => NeverOffOps(nested)
  }

  ghost predicate WithinLimit(s: State) { s.limited && |s.queue| <= s.maxQueue }

  lemma DoOpKeepsWithin(s: State, op: Op)
    requires WithinLimit(s) && op != EnableMaxQueue(false)
    ensures WithinLimit(DoOp(s, op)) && DoOp(s, op).maxQueue == s.maxQueue
  {
  }

  lemma {:induction false} DoOpsKeepWithin(s: State, ops: seq<Op>)
    requires WithinLimit(s) && NeverOffOps(ops)
    ensures WithinLimit(DoOps(s, ops)) && DoOps(s, ops).maxQueue == s.maxQueue
    decreases |ops|
  {
    if ops != [] {
      DoOpKeepsWithin(s, ops[0]);
      assert forall i :: 0 <= i < |ops| - 1 ==> ops[1..][i] == ops[i + 1];
      DoOpsKeepWithin(DoOp(s, ops[0]), ops[1..]);
    }
  }

  lemma StepKeepsWithin(s: State, e: Event)
    requires WithinLimit(s) && Enabled(s, e) && NeverOff(e)
    ensures WithinLimit(Step(s, e)) && Step(s, e).maxQueue == s.maxQueue
  {
    match e
    case Call(op) => DoOpKeepsWithin(s, op);
    case Complete(k, ok, nested) => DoOpsKeepWithin(Delivered(s, k, ok), nested);
  }

  lemma {:induction false} RunsKeepWithin(s: State, es: seq<Event>, t: State)
    requires WithinLimit(s) && Runs(s, es, t) && forall i :: 0 <= i < |es| ==> NeverOff(es[i])
    ensures WithinLimit(t) && t.maxQueue == s.maxQueue
    decreases |es|
  {
    if es != [] {
      assert NeverOff(es[0]);
      StepKeepsWithin(s, es[0]);
      assert forall i :: 0 <= i < |es| - 1 ==> es[1..][i] == es[i + 1];
      RunsKeepWithin(Step(s, es[0]), es[1..], t);
    }
  }

  /** In a run that never switches the limit off, no more than max_queue_size entries ever wait. */
  lemma QueueWithinLimit(maxQueue: nat, es: seq<Event>, t: State)
    requires Runs(Init(maxQueue), es, t) && forall i :: 0 <= i < |es| ==> NeverOff(es[i])
    ensures |t.queue| <= maxQueue
  {
    RunsKeepWithin(Init(maxQueue), es, t);
  }

  /** What was last asked for is what holds. */
  lemma LimitSwitches(s: State, enable: bool)
    ensures DoOp(s, EnableMaxQueue(enable)) == s.(limited := enable)
  {
  }

  // ---------- how many sends there were ----------

  ghost function SendsIn(ops: seq<Op>): nat {
    if ops == [] then 0 else (if ops[0].Send? then 1 else 0) + SendsIn(ops[1..])
  }

  /** The sends of a run, by callers and by handlers. */
  ghost function Sends(es: seq<Event>): nat {
    if es == [] then 0
    else SendsAt(es[0]) + Sends(es[1..])
  }

  lemma {:induction false} DoOpsCountSends(s: State, ops: seq<Op>)
    ensures DoOps(s, ops).hist.next == s.hist.next + SendsIn(ops)
    decreases |ops|
  {
    if ops != [] {
      DoOpsCountSends(DoOp(s, ops[0]), ops[1..]);
    }
  }

  ghost function SendsAt(e: Event): nat {
    match e
    case Call(op) => if op.Send? then 1 else 0
    case Complete(_, _, nested) => SendsIn(nested)
  }

  lemma StepCountsSends(s: State, e: Event)
    requires Enabled(s, e)
    ensures Step(s, e).hist.next == s.hist.next + SendsAt(e)
  {
    if e.Complete? {
      DoOpsCountSends(Delivered(s, e.k, e.ok), e.nested);
    }
  }

  /** Every send of a run is in exactly one place: rejected, waiting, with the stream, completed or
      discarded; they are numbered in order. */
  lemma {:induction false} RunsCountSends(s: State, es: seq<Event>, t: State)
    requires Runs(s, es, t)
    ensures t.hist.next == s.hist.next + Sends(es)
    decreases |es|
  {
    if es != [] {
      StepCountsSends(s, es[0]);
      RunsCountSends(Step(s, es[0]), es[1..], t);
    }
  }

  lemma EverySendIsSomewhere(maxQueue: nat, es: seq<Event>, t: State, id: nat)
    requires Runs(Init(maxQueue), es, t)
    ensures Sum(EntryW(id), t.hist.rejected) + Sum(EntryW(id), t.queue) + Sum(EntryW(id), t.outstanding)
            + Sum(EntryW(id), t.hist.completed) + Sum(EntryW(id), t.hist.discarded) == if id < Sends(es) then 1 else 0
  {
    RunsCountSends(Init(maxQueue), es, t);
    InitPlaced(maxQueue, id);
    RunsKeepPlaced(Init(maxQueue), es, t, id);
    assert Init(maxQueue).hist.next == 0 && Placed(t, id);
    hide Runs, Ordered, Init, Sends;
  }

  // ---------- what a handler is told ----------

  /** The entries whose writes complete in a run with this result, by the events. */
  ghost function Finished(s: State, es: seq<Event>, t: State, ok: bool): set<Entry>
    requires Runs(s, es, t)
    decreases |es|
  {
    if es == [] then {} else FinishedNow(s, es[0], ok) + Finished(Step(s, es[0]), es[1..], t, ok)
  }

  ghost function FinishedNow(s: State, e: Event, ok: bool): set<Entry>
    requires Enabled(s, e)
  {
    if e.Complete? && e.ok == ok then {s.outstanding[e.k]} else {}
  }

  /** Handlers are told true of these entries, and false of these and of the rejected ones. */
  ghost predicate Told(s: State, good: set<Entry>, bad: set<Entry>) {
    && (forall id :: Outcome(id, true) in s.hist.fired <==> Entry(id, true) in good)
    && (forall id :: Outcome(id, false) in s.hist.fired <==> Entry(id, true) in bad || Entry(id, true) in s.hist.rejected)
  }

  lemma DoOpTells(s: State, op: Op, good: set<Entry>, bad: set<Entry>)
    requires Told(s, good, bad)
    ensures Told(DoOp(s, op), good, bad)
  {
    if op.Send? {
      SendRejectedIff(s, op.notify);
      hide DoOp;
    }
  }

  lemma {:induction false} DoOpsTell(s: State, ops: seq<Op>, good: set<Entry>, bad: set<Entry>)
    requires Told(s, good, bad)
    ensures Told(DoOps(s, ops), good, bad)
    decreases |ops|
  {
    if ops != [] {
      DoOpTells(s, ops[0], good, bad);
      DoOpsTell(DoOp(s, ops[0]), ops[1..], good, bad);
    }
  }

  lemma DeliveryTells(s: State, k: nat, ok: bool, good: set<Entry>, bad: set<Entry>)
    requires Told(s, good, bad) && k < |s.outstanding|
    ensures var e := {s.outstanding[k]};
      Told(Delivered(s, k, ok), if ok then good + e else good, if ok then bad else bad + e)
  {
    var e := s.outstanding[k];
    var t := Delivered(s, k, ok);
    assert t.hist.fired == s.hist.fired + (if e.notify then [Outcome(e.id, ok)] else []);
    assert t.hist.rejected == s.hist.rejected;
    assert forall id :: Entry(id, true) == e <==> e.notify && e.id == id;
  }

  lemma StepTells(s: State, e: Event, good: set<Entry>, bad: set<Entry>)
    requires Told(s, good, bad) && Enabled(s, e)
    ensures Told(Step(s, e), good + FinishedNow(s, e, true), bad + FinishedNow(s, e, false))
  {
    assert good + {} == good && bad + {} == bad;
    match e
    case Call(op) => DoOpTells(s, op, good, bad);
    case Complete(k, ok, nested) =>
      var d := Delivered(s, k, ok);
      DeliveryTells(s, k, ok, good, bad);
      DoOpsTell(d, nested, good + FinishedNow(s, e, true), bad + FinishedNow(s, e, false));
      assert Continued(DoOps(d, nested), ok).hist.fired == DoOps(d, nested).hist.fired;
      assert Continued(DoOps(d, nested), ok).hist.rejected == DoOps(d, nested).hist.rejected;
  }

  lemma {:induction false} RunsTell(s: State, es: seq<Event>, t: State, good: set<Entry>, bad: set<Entry>)
    requires Told(s, good, bad) && Runs(s, es, t)
    ensures Told(t, good + Finished(s, es, t, true), bad + Finished(s, es, t, false))
    decreases |es|
  {
    assert good + {} == good && bad + {} == bad;
    if es != [] {
      var u := Step(s, es[0]);
      StepTells(s, es[0], good, bad);
      var good', bad' := good + FinishedNow(s, es[0], true), bad + FinishedNow(s, es[0], false);
      RunsTell(u, es[1..], t, good', bad');
      assert good' + Finished(u, es[1..], t, true) == good + Finished(s, es, t, true);
      assert bad' + Finished(u, es[1..], t, false) == bad + Finished(s, es, t, false);
    }
  }

  /** Over any run: a handler is told true exactly if the write of its entry completed without error, and
      false exactly if it completed with one or the entry was rejected. */
  lemma HandlersAreTold(maxQueue: nat, es: seq<Event>, t: State, id: nat)
    requires Runs(Init(maxQueue), es, t)
    ensures Outcome(id, true) in t.hist.fired <==> Entry(id, true) in Finished(Init(maxQueue), es, t, true)
    ensures Outcome(id, false) in t.hist.fired <==>
              Entry(id, true) in Finished(Init(maxQueue), es, t, false) || Entry(id, true) in t.hist.rejected
  {
    RunsTell(Init(maxQueue), es, t, {}, {});
    assert {} + Finished(Init(maxQueue), es, t, true) == Finished(Init(maxQueue), es, t, true);
    assert {} + Finished(Init(maxQueue), es, t, false) == Finished(Init(maxQueue), es, t, false);
  }

  // ---------- what closes and failures discard ----------

  /** A force close and a failed write leave nothing waiting: all that waited is discarded, and by
      HandlerFiresOnce no handler of it is ever called. */
  lemma NothingWaitsAfter(s: State, k: nat, nested: seq<Op>)
    requires Enabled(s, Complete(k, false, nested))
    ensures Step(s, Complete(k, false, nested)).queue == []
    ensures DoOp(s, Close(true)).queue == [] && !DoOp(s, Close(true)).writing
    ensures DoOp(s, Close(true)).hist.discarded == s.hist.discarded + s.queue
  {
  }

  /** A successful write is followed by the next one that waits when its handler has returned, or by none. */
  lemma NextIsWritten(s: State, k: nat, nested: seq<Op>)
    requires Enabled(s, Complete(k, true, nested))
    ensures var m := DoOps(Delivered(s, k, true), nested); var t := Step(s, Complete(k, true, nested));
      if m.queue == [] then t.hist.written == m.hist.written && !t.writing
      else t.hist.written == m.hist.written + [m.queue[0]] && t.queue == m.queue[1..] && t.writing
           && t.outstanding == m.outstanding + [m.queue[0]]
  {
  }
}
