/** The scatter/gather write queue.  Its handlers run one at a time on a strand; a completion handler
    may call back into the queue before the write's own continuation goes on. */
module WriteQueue {
  import opened Sums

  /** A message and whether its sender gave a completion handler.  Ids number the sends. */
  datatype Entry = Entry(id: nat, notify: bool)

  datatype Outcome = Outcome(id: nat, success: bool)

  datatype Op = Send(notify: bool) | Close(force: bool) | EnableMaxQueue(enable: bool)

  /** A call from outside, or the completion of the k-th outstanding write; `nested` are the calls its
      handler makes. */
  datatype Event = Call(op: Op) | Complete(k: nat, ok: bool, nested: seq<Op>)

  datatype History = History(
    next: nat, accepted: seq<Entry>, written: seq<Entry>, rejected: seq<Entry>, discarded: seq<Entry>,
    completed: seq<Entry>, fired: seq<Outcome>, failed: bool)

  datatype State = State(
    maxQueue: nat,
    queue: seq<Entry>, limited: bool, writing: bool, graceful: bool,
    outstanding: seq<Entry>,                      // handed to async_write, not yet completed
    hist: History)

  ghost function Init(maxQueue: nat): State {
    State(maxQueue, [], true, false, false, [], History(0, [], [], [], [], [], [], false))
  }

  // ---------- the handlers ----------

  ghost function DoWrite(s: State): State {
    if s.queue == [] then s.(writing := false)
    else
      s.(writing := true, queue := s.queue[1..], outstanding := s.outstanding + [s.queue[0]],
         hist := s.hist.(written := s.hist.written + [s.queue[0]]))
  }

  ghost function Fired(log: seq<Outcome>, e: Entry, success: bool): seq<Outcome> {
    if e.notify then log + [Outcome(e.id, success)] else log
  }

  ghost predicate Full(s: State) { s.limited && |s.queue| >= s.maxQueue }

  ghost function Enqueued(s: State, e: Entry): State {
    s.(queue := s.queue + [e], hist := s.hist.(next := s.hist.next + 1, accepted := s.hist.accepted + [e]))
  }

  ghost function Rejected(s: State, e: Entry): State {
    s.(hist := s.hist.(next := s.hist.next + 1, rejected := s.hist.rejected + [e],
                       fired := Fired(s.hist.fired, e, false)))
  }

  ghost function Cleared(s: State): State {
    s.(queue := [], hist := s.hist.(discarded := s.hist.discarded + s.queue))
  }

  ghost function DoOp(s: State, op: Op): State {
    match op
    case Send(notify) =>
      var e := Entry(s.hist.next, notify);
      if Full(s) then Rejected(s, e)
      else if s.writing then Enqueued(s, e)
      else DoWrite(Enqueued(s, e))
    case Close(force) => if force then Cleared(s).(writing := false) else s.(graceful := true)
    case EnableMaxQueue(enable) => s.(limited := enable)
  }

  ghost function DoOps(s: State, ops: seq<Op>): State
    decreases |ops|
  {
    if ops == [] then s else DoOps(DoOp(s, ops[0]), ops[1..])
  }

  /** The completed write leaves the stream and its handler is called. */
  ghost function Delivered(s: State, k: nat, ok: bool): State
    requires k < |s.outstanding|
  {
    var e := s.outstanding[k];
    s.(outstanding := s.outstanding[..k] + s.outstanding[k + 1..],
       hist := s.hist.(completed := s.hist.completed + [e], fired := Fired(s.hist.fired, e, ok)))
  }

  /** What the completion does after the handler has returned. */
  ghost function Continued(s: State, ok: bool): State {
    if ok then DoWrite(s) else Cleared(s).(hist := Cleared(s).hist.(failed := true))
  }

  ghost predicate Enabled(s: State, e: Event) {
    e.Complete? ==> e.k < |s.outstanding| && (!s.outstanding[e.k].notify ==> e.nested == [])
  }

  ghost function Step(s: State, e: Event): State
    requires Enabled(s, e)
  {
    match e
    case Call(op) => DoOp(s, op)
    case Complete(k, ok, nested) => Continued(DoOps(Delivered(s, k, ok), nested), ok)
  }

  ghost predicate Runs(s: State, es: seq<Event>, t: State)
    decreases |es|
  {
    if es == [] then s == t else Enabled(s, es[0]) && Runs(Step(s, es[0]), es[1..], t)
  }

  ghost predicate Reachable(s: State) { exists es :: Runs(Init(s.maxQueue), es, s) }

  // ---------- order and conservation, for every run ----------

  ghost predicate Increasing(es: seq<Entry>) { forall i, j :: 0 <= i < j < |es| ==> es[i].id < es[j].id }

  ghost predicate AllBelow(es: seq<Entry>, n: nat) { forall i :: 0 <= i < |es| ==> es[i].id < n }

  /** Written, then queued: increasing ids, all of them accepted. */
  ghost predicate Ordered(s: State) {
    && Increasing(s.hist.accepted) && AllBelow(s.hist.accepted, s.hist.next)
    && Increasing(s.hist.written + s.queue)
    && (forall e :: e in s.hist.written + s.queue ==> e in s.hist.accepted)
    && (!s.writing ==> s.queue == [])
  }

  lemma DoWriteKeepsOrdered(s: State)
    requires Increasing(s.hist.accepted) && AllBelow(s.hist.accepted, s.hist.next)
    requires Increasing(s.hist.written + s.queue)
    requires forall e :: e in s.hist.written + s.queue ==> e in s.hist.accepted
    ensures Ordered(DoWrite(s))
  {
    if s.queue != [] {
      var t := DoWrite(s);
      assert t.hist.written + t.queue == s.hist.written + s.queue;
    }
  }

  lemma DoOpKeepsOrdered(s: State, op: Op)
    requires Ordered(s)
    ensures Ordered(DoOp(s, op))
  {
    match op
    case Send(notify) =>
      var e := Entry(s.hist.next, notify);
      if !Full(s) {
        var t := Enqueued(s, e);
        var all := s.hist.written + s.queue;
        assert t.hist.written + t.queue == all + [e];
        forall x | x in all + [e] ensures x in t.hist.accepted {
        }
        forall i | 0 <= i < |all| ensures all[i].id < e.id {
          assert all[i] in s.hist.accepted;
        }
        DoWriteKeepsOrdered(t);
      }
    case Close(force) =>
      if force {
        var t := DoOp(s, op);
        assert t.hist.written + t.queue == s.hist.written;
        assert forall i :: 0 <= i < |s.hist.written| ==> s.hist.written[i] == (s.hist.written + s.queue)[i];
      }
    case EnableMaxQueue(enable) =>
  }

  lemma ClearedKeepsOrdered(s: State)
    requires Ordered(s)
    ensures Ordered(Cleared(s))
  {
    DoOpKeepsOrdered(s, Close(true));
  }

  lemma {:induction false} DoOpsKeepsOrdered(s: State, ops: seq<Op>)
    requires Ordered(s)
    ensures Ordered(DoOps(s, ops))
    decreases |ops|
  {
    if ops != [] {
      DoOpKeepsOrdered(s, ops[0]);
      DoOpsKeepsOrdered(DoOp(s, ops[0]), ops[1..]);
    }
  }

  lemma StepKeepsOrdered(s: State, e: Event)
    requires Ordered(s) && Enabled(s, e)
    ensures Ordered(Step(s, e))
  {
    match e
    case Call(op) => DoOpKeepsOrdered(s, op);
    case Complete(k, ok, nested) =>
      var m := DoOps(Delivered(s, k, ok), nested);
      DoOpsKeepsOrdered(Delivered(s, k, ok), nested);
      if ok {
        DoWriteKeepsOrdered(m);
      } else {
        ClearedKeepsOrdered(m);
      }
  }

  // ---------- where each send is ----------

  ghost function EntryW(id: nat): Entry -> nat { (e: Entry) => if e.id == id then 1 else 0 }

  ghost function NotifyW(id: nat): Entry -> nat { (e: Entry) => if e.id == id && e.notify then 1 else 0 }

  ghost function OutcomeW(id: nat): Outcome -> nat { (o: Outcome) => if o.id == id then 1 else 0 }

  /** A send is accepted or rejected; accepted, it is queued, outstanding, completed or discarded; and
      its handler has fired exactly when it was rejected or has completed. */
  ghost predicate Placed(s: State, id: nat) {
    && Sum(EntryW(id), s.hist.accepted) + Sum(EntryW(id), s.hist.rejected) == (if id < s.hist.next then 1 else 0)
    && Sum(EntryW(id), s.hist.accepted)
       == Sum(EntryW(id), s.queue) + Sum(EntryW(id), s.hist.written) + Sum(EntryW(id), s.hist.discarded)
    && Sum(EntryW(id), s.hist.written) == Sum(EntryW(id), s.outstanding) + Sum(EntryW(id), s.hist.completed)
    && Sum(OutcomeW(id), s.hist.fired) == Sum(NotifyW(id), s.hist.rejected) + Sum(NotifyW(id), s.hist.completed)
  }

  lemma DoWriteKeepsPlaced(s: State, id: nat)
    requires Placed(s, id)
    ensures Placed(DoWrite(s), id)
  {
    if s.queue != [] {
      SumSnoc(EntryW(id), s.outstanding, s.queue[0]);
      SumSnoc(EntryW(id), s.hist.written, s.queue[0]);
    }
  }

  lemma EnqueuedKeepsPlaced(s: State, notify: bool, id: nat)
    requires Placed(s, id)
    ensures Placed(Enqueued(s, Entry(s.hist.next, notify)), id)
  {
    var e := Entry(s.hist.next, notify);
    SumSnoc(EntryW(id), s.queue, e);
    SumSnoc(EntryW(id), s.hist.accepted, e);
  }

  lemma RejectedKeepsPlaced(s: State, notify: bool, id: nat)
    requires Placed(s, id)
    ensures Placed(Rejected(s, Entry(s.hist.next, notify)), id)
  {
    var e := Entry(s.hist.next, notify);
    SumSnoc(EntryW(id), s.hist.rejected, e);
    SumSnoc(NotifyW(id), s.hist.rejected, e);
    SumSnoc(OutcomeW(id), s.hist.fired, Outcome(e.id, false));
  }

  lemma ClearedKeepsPlaced(s: State, id: nat)
    requires Placed(s, id)
    ensures Placed(Cleared(s), id)
  {
    SumAppend(EntryW(id), s.hist.discarded, s.queue);
  }

  lemma DeliveredKeepsPlaced(s: State, k: nat, ok: bool, id: nat)
    requires Placed(s, id) && k < |s.outstanding|
    ensures Placed(Delivered(s, k, ok), id)
  {
    var e := s.outstanding[k];
    SumRemove(EntryW(id), s.outstanding, k);
    SumSnoc(EntryW(id), s.hist.completed, e);
    SumSnoc(NotifyW(id), s.hist.completed, e);
    SumSnoc(OutcomeW(id), s.hist.fired, Outcome(e.id, ok));
  }

  lemma DoOpKeepsPlaced(s: State, op: Op, id: nat)
    requires Placed(s, id)
    ensures Placed(DoOp(s, op), id)
  {
    match op
    case Send(notify) =>
      RejectedKeepsPlaced(s, notify, id);
      EnqueuedKeepsPlaced(s, notify, id);
      DoWriteKeepsPlaced(Enqueued(s, Entry(s.hist.next, notify)), id);
    case Close(force) =>
      ClearedKeepsPlaced(s, id);
    case EnableMaxQueue(enable) =>
  }

  lemma {:induction false} DoOpsKeepsPlaced(s: State, ops: seq<Op>, id: nat)
    requires Placed(s, id)
    ensures Placed(DoOps(s, ops), id)
    decreases |ops|
  {
    if ops != [] {
      DoOpKeepsPlaced(s, ops[0], id);
      DoOpsKeepsPlaced(DoOp(s, ops[0]), ops[1..], id);
    }
  }

  lemma StepKeepsPlaced(s: State, e: Event, id: nat)
    requires Placed(s, id) && Enabled(s, e)
    ensures Placed(Step(s, e), id)
  {
    hide Placed;
    match e
    case Call(op) => DoOpKeepsPlaced(s, op, id);
    case Complete(k, ok, nested) =>
      DeliveredKeepsPlaced(s, k, ok, id);
      DoOpsKeepsPlaced(Delivered(s, k, ok), nested, id);
      var m := DoOps(Delivered(s, k, ok), nested);
      if ok {
        DoWriteKeepsPlaced(m, id);
      } else {
        ClearedKeepsPlaced(m, id);
        FailingKeepsPlaced(Cleared(m), id);
      }
  }

  lemma FailingKeepsPlaced(s: State, id: nat)
    requires Placed(s, id)
    ensures Placed(s.(hist := s.hist.(failed := true)), id)
  {
  }

  lemma {:induction false} RunsKeepPlaced(s: State, es: seq<Event>, t: State, id: nat)
    requires Ordered(s) && Placed(s, id) && Runs(s, es, t)
    ensures Ordered(t) && Placed(t, id)
    decreases |es|
  {
    if es != [] {
      StepKeepsOrdered(s, es[0]);
      StepKeepsPlaced(s, es[0], id);
      RunsKeepPlaced(Step(s, es[0]), es[1..], t, id);
    }
  }

  lemma InitPlaced(maxQueue: nat, id: nat)
    ensures Ordered(Init(maxQueue)) && Placed(Init(maxQueue), id)
  {
  }

  lemma ReachablePlaced(s: State, id: nat)
    requires Reachable(s)
    ensures Ordered(s) && Placed(s, id)
  {
    hide Ordered, Placed, Init;
    var es :| Runs(Init(s.maxQueue), es, s);
    InitPlaced(s.maxQueue, id);
    RunsKeepPlaced(Init(s.maxQueue), es, s, id);
  }

  /** Whatever happens, force closes and re-entrant handlers included: what is handed to async_write
      is an in-order selection of the accepted sends, and an idle queue is an empty one. */
  lemma WriteOrder(s: State)
    requires Reachable(s)
    ensures Increasing(s.hist.accepted) && Increasing(s.hist.written + s.queue)
    ensures forall e :: e in s.hist.written ==> e in s.hist.accepted
    ensures !s.writing ==> s.queue == []
  {
    ReachablePlaced(s, 0);
    hide Placed, Reachable, Increasing;
    assert forall e :: e in s.hist.written ==> e in s.hist.written + s.queue;
  }

  /** Every send is written at most once, and its handler fires at most once: exactly when the send was
      rejected or its write has completed, if it has a handler. */
  lemma HandlerFiresOnce(s: State, id: nat)
    requires Reachable(s)
    ensures Sum(OutcomeW(id), s.hist.fired) <= 1 && Sum(EntryW(id), s.hist.written) <= 1
    ensures Sum(OutcomeW(id), s.hist.fired) == Sum(NotifyW(id), s.hist.rejected) + Sum(NotifyW(id), s.hist.completed)
    ensures id < s.hist.next ==>
              Sum(EntryW(id), s.hist.rejected) + Sum(EntryW(id), s.queue) + Sum(EntryW(id), s.outstanding)
              + Sum(EntryW(id), s.hist.completed) + Sum(EntryW(id), s.hist.discarded) == 1
  {
    ReachablePlaced(s, id);
    hide Reachable, Ordered;
    NotifiedAtMostAll(s.hist.rejected, id);
    NotifiedAtMostAll(s.hist.completed, id);
  }

  lemma {:induction false} NotifiedAtMostAll(es: seq<Entry>, id: nat)
    ensures Sum(NotifyW(id), es) <= Sum(EntryW(id), es)
  {
    if es != [] {
      NotifiedAtMostAll(es[1..], id);
    }
  }

  // ---------- runs without a force close ----------

  ghost predicate NoForceOps(ops: seq<Op>) { forall i :: 0 <= i < |ops| ==> ops[i] != Close(true) }

  ghost predicate NoForceEvent(e: Event) {
    match e
    case Call(op) => op != Close(true)
    case Complete(k, ok, nested) => NoForceOps(nested)
  }

  ghost predicate NoForce(es: seq<Event>) { forall i :: 0 <= i < |es| ==> NoForceEvent(es[i]) }

  /** Between a completion's handler and its continuation: writing_ is set although nothing is out. */
  ghost predicate Between(s: State) {
    && !s.hist.failed && s.writing && s.outstanding == []
    && s.hist.accepted == s.hist.written + s.queue && s.hist.completed == s.hist.written
  }

  /** No write has failed yet: one write is out if writing_, none if not. */
  ghost predicate Flowing(s: State) {
    && !s.hist.failed
    && s.hist.accepted == s.hist.written + s.queue
    && s.hist.completed + s.outstanding == s.hist.written
    && |s.outstanding| == (if s.writing then 1 else 0)
    && (!s.writing ==> s.queue == [])
  }

  /** A write has failed: writing_ stays set with nothing out, so nothing is ever written again. */
  ghost predicate Dead(s: State) {
    && s.hist.failed && s.writing && s.outstanding == []
    && s.hist.written <= s.hist.accepted && s.hist.completed == s.hist.written
  }

  ghost predicate SingleFlight(s: State) { Flowing(s) || Dead(s) }

  lemma DoOpKeepsFlight(s: State, op: Op)
    requires op != Close(true)
    ensures Flowing(s) ==> Flowing(DoOp(s, op)) && s.hist.written <= DoOp(s, op).hist.written
    ensures Between(s) ==> Between(DoOp(s, op)) && DoOp(s, op).hist.written == s.hist.written
    ensures Dead(s) ==> Dead(DoOp(s, op)) && DoOp(s, op).hist.written == s.hist.written
  {
  }

  lemma {:induction false} DoOpsKeepBetween(s: State, ops: seq<Op>)
    requires NoForceOps(ops) && Between(s)
    ensures Between(DoOps(s, ops)) && DoOps(s, ops).hist.written == s.hist.written
    decreases |ops|
  {
    if ops != [] {
      DoOpKeepsFlight(s, ops[0]);
      assert forall i :: 0 <= i < |ops| - 1 ==> ops[1..][i] == ops[i + 1];
      DoOpsKeepBetween(DoOp(s, ops[0]), ops[1..]);
    }
  }

  lemma DeliveredIsBetween(s: State, k: nat, ok: bool)
    requires Flowing(s) && k < |s.outstanding|
    ensures Between(Delivered(s, k, ok)) && Delivered(s, k, ok).hist.written == s.hist.written
  {
    var d := Delivered(s, k, ok);
    assert s.outstanding == [s.outstanding[k]] && d.outstanding == [];
    assert s.hist.completed + [s.outstanding[k]] == s.hist.written;
  }

  lemma ContinuedKeepsFlight(s: State, ok: bool)
    requires Between(s)
    ensures SingleFlight(Continued(s, ok)) && s.hist.written <= Continued(s, ok).hist.written
  {
    var t := Continued(s, ok);
    if ok && s.queue != [] {
      assert t.hist.written + t.queue == s.hist.written + s.queue;
      assert t.outstanding == [s.queue[0]];
      assert Flowing(t);
    } else if ok {
      assert Flowing(t);
    } else {
      assert Dead(t);
    }
  }

  lemma StepKeepsFlight(s: State, e: Event)
    requires SingleFlight(s) && Enabled(s, e) && NoForceEvent(e)
    ensures SingleFlight(Step(s, e))
    ensures s.hist.written <= Step(s, e).hist.written
    ensures Dead(s) ==> Dead(Step(s, e)) && Step(s, e).hist.written == s.hist.written
  {
    match e
    case Call(op) => DoOpKeepsFlight(s, op);
    case Complete(k, ok, nested) =>
      assert Flowing(s) && !Dead(s);
      var d := Delivered(s, k, ok);
      DeliveredIsBetween(s, k, ok);
      hide Delivered, Continued, Between, Flowing, Dead;
      DoOpsKeepBetween(d, nested);
      ContinuedKeepsFlight(DoOps(d, nested), ok);
  }

  lemma {:induction false} RunsKeepFlight(s: State, es: seq<Event>, t: State)
    requires SingleFlight(s) && Runs(s, es, t) && NoForce(es)
    ensures SingleFlight(t) && s.hist.written <= t.hist.written
    ensures Dead(s) ==> Dead(t) && t.hist.written == s.hist.written
    decreases |es|
  {
    if es != [] {
      StepKeepsFlight(s, es[0]);
      assert forall i :: 0 <= i < |es| - 1 ==> es[1..][i] == es[i + 1];
      RunsKeepFlight(Step(s, es[0]), es[1..], t);
    }
  }

  /** Without a force close the writes are a prefix of the accepted sends, one at a time; and while no
      write has failed, an idle queue has written everything. */
  lemma GracefulRuns(maxQueue: nat, es: seq<Event>, t: State)
    requires Runs(Init(maxQueue), es, t) && NoForce(es)
    ensures t.hist.written <= t.hist.accepted && |t.outstanding| <= 1
    ensures t.hist.completed + t.outstanding == t.hist.written
    ensures !t.hist.failed ==> t.hist.accepted == t.hist.written + t.queue
    ensures !t.hist.failed && t.outstanding == [] ==> t.hist.written == t.hist.accepted
  {
    RunsKeepFlight(Init(maxQueue), es, t);
  }

  /** Without any force close, after a failed write nothing is written any more, however many sends are
      still accepted. */
  lemma NothingWrittenAfterError(maxQueue: nat, before: seq<Event>, s: State, after: seq<Event>, t: State)
    requires Runs(Init(maxQueue), before, s) && NoForce(before) && s.hist.failed
    requires Runs(s, after, t) && NoForce(after)
    ensures t.hist.written == s.hist.written && t.outstanding == [] && t.writing
  {
    RunsKeepFlight(Init(maxQueue), before, s);
    RunsKeepFlight(s, after, t);
  }

  // ---------- the exact price of a force close ----------

  /** At most one write is out, and if one is, writing_ says so. */
  ghost predicate Guarded(s: State) {
    |s.outstanding| <= 1 && (s.outstanding != [] ==> s.writing)
  }

  lemma DoOpKeepsGuarded(s: State, op: Op)
    requires Guarded(s) && (op == Close(true) ==> s.outstanding == [])
    ensures Guarded(DoOp(s, op))
  {
  }

  /** A completed write is out of the way before its handler runs, and writing_ keeps the handler's sends
      from writing. */
  ghost predicate InHandler(s: State) { s.outstanding == [] && s.writing }

  lemma {:induction false} DoOpsKeepInHandler(s: State, ops: seq<Op>)
    requires NoForceOps(ops) && InHandler(s)
    ensures InHandler(DoOps(s, ops)) && DoOps(s, ops).hist.written == s.hist.written
    decreases |ops|
  {
    if ops != [] {
      assert forall i :: 0 <= i < |ops| - 1 ==> ops[1..][i] == ops[i + 1];
      DoOpsKeepInHandler(DoOp(s, ops[0]), ops[1..]);
    }
  }

  lemma StepKeepsGuarded(s: State, e: Event)
    requires Guarded(s) && Enabled(s, e) && NoForceEvent(e)
    ensures Guarded(Step(s, e))
  {
    match e
    case Call(op) => DoOpKeepsGuarded(s, op);
    case Complete(k, ok, nested) => DoOpsKeepInHandler(Delivered(s, k, ok), nested);
  }

  lemma {:induction false} RunsKeepGuarded(s: State, es: seq<Event>, t: State)
    requires Guarded(s) && Runs(s, es, t) && NoForce(es)
    ensures Guarded(t)
    decreases |es|
  {
    if es != [] {
      StepKeepsGuarded(s, es[0]);
      assert forall i :: 0 <= i < |es| - 1 ==> es[1..][i] == es[i + 1];
      RunsKeepGuarded(Step(s, es[0]), es[1..], t);
    }
  }

  /** Two writes are never out together, whatever happens short of a force close. */
  ghost predicate NeverTwoOut(s: State) {
    forall es, t :: Runs(s, es, t) && NoForce(es) ==> |t.outstanding| <= 1
  }

  /** The run that switches the limit off and sends one message. */
  lemma SendUnlimited(s: State) returns (es: seq<Event>, t: State)
    ensures Runs(s, es, t) && NoForce(es) && es == [Call(EnableMaxQueue(false)), Call(Send(false))]
    ensures t == DoOp(DoOp(s, EnableMaxQueue(false)), Send(false))
  {
    es := [Call(EnableMaxQueue(false)), Call(Send(false))];
    var u := DoOp(s, EnableMaxQueue(false));
    t := DoOp(u, Send(false));
    assert es[1..] == [Call(Send(false))] && es[1..][1..] == [];
    assert Runs(t, es[1..][1..], t);
    assert Runs(u, es[1..], t);
  }

  lemma NeverTwoOutIff(s: State)
    ensures NeverTwoOut(s) <==> Guarded(s)
  {
    if Guarded(s) {
      forall es, t | Runs(s, es, t) && NoForce(es)
        ensures |t.outstanding| <= 1
      {
        RunsKeepGuarded(s, es, t);
      }
    } else if |s.outstanding| > 1 {
      assert Runs(s, [], s);
    } else {
      var es, t := SendUnlimited(s);
    }
  }

  /** A force close resets writing_ while a cancelled write may still be out.  Whatever happened before,
      writes stay one at a time from then on exactly if none was out at the moment of the close. */
  lemma ForceCloseSafeIff(s: State)
    ensures NeverTwoOut(DoOp(s, Close(true))) <==> s.outstanding == []
  {
    NeverTwoOutIff(DoOp(s, Close(true)));
  }

  /** Every force close among the calls of a handler comes when nothing is out. */
  ghost predicate CleanOps(s: State, ops: seq<Op>)
    decreases |ops|
  {
    ops == [] || ((ops[0] == Close(true) ==> s.outstanding == []) && CleanOps(DoOp(s, ops[0]), ops[1..]))
  }

  /** A force close comes when nothing is out, and a handler leaves nothing out for the continuation of a
      successful write, which writes or clears writing_ without looking. */
  ghost predicate CleanEvent(s: State, e: Event)
    requires Enabled(s, e)
  {
    match e
    case Call(op) => op == Close(true) ==> s.outstanding == []
    case Complete(k, ok, nested) =>
      && CleanOps(Delivered(s, k, ok), nested)
      && (ok ==> DoOps(Delivered(s, k, ok), nested).outstanding == [])
  }

  ghost predicate Clean(s: State, es: seq<Event>)
    decreases |es|
  {
    es == [] || (Enabled(s, es[0]) && CleanEvent(s, es[0]) && Clean(Step(s, es[0]), es[1..]))
  }

  /** In no state of the run can two writes come to be out without a further force close. */
  ghost predicate SafeThroughout(s: State, es: seq<Event>)
    decreases |es|
  {
    NeverTwoOut(s) && (es == [] || (Enabled(s, es[0]) && SafeThroughout(Step(s, es[0]), es[1..])))
  }

  lemma {:induction false} DoOpsGuardedIff(s: State, ops: seq<Op>)
    ensures Guarded(s) ==> (Guarded(DoOps(s, ops)) <==> CleanOps(s, ops))
    ensures !Guarded(s) ==> !Guarded(DoOps(s, ops))
    ensures DoOps(s, ops).outstanding == [] ==> s.outstanding == [] && CleanOps(s, ops)
    decreases |ops|
  {
    if ops != [] {
      DoOpsGuardedIff(DoOp(s, ops[0]), ops[1..]);
      DoOpGuardedIff(s, ops[0]);
    }
  }

  lemma DoOpGuardedIff(s: State, op: Op)
    ensures Guarded(s) ==> (Guarded(DoOp(s, op)) <==> (op == Close(true) ==> s.outstanding == []))
    ensures !Guarded(s) ==> !Guarded(DoOp(s, op))
    ensures DoOp(s, op).outstanding == [] ==> s.outstanding == []
  {
  }

  lemma StepGuardedIff(s: State, e: Event)
    requires Guarded(s) && Enabled(s, e)
    ensures Guarded(Step(s, e)) <==> CleanEvent(s, e)
  {
    match e
    case Call(op) => DoOpGuardedIff(s, op);
    case Complete(k, ok, nested) =>
      var d := Delivered(s, k, ok);
      assert Guarded(d);
      hide Delivered;
      DoOpsGuardedIff(d, nested);
  }

  /** Over any run, with any number of force closes and re-entrant handlers, writes stay one at a time
      exactly if every force close, and every continuation, came when nothing was out. */
  lemma {:induction false} SafeThroughoutIff(s: State, es: seq<Event>)
    requires Guarded(s)
    ensures SafeThroughout(s, es) <==> Clean(s, es)
    decreases |es|
  {
    NeverTwoOutIff(s);
    if es != [] && Enabled(s, es[0]) {
      StepGuardedIff(s, es[0]);
      NeverTwoOutIff(Step(s, es[0]));
      if Guarded(Step(s, es[0])) {
        SafeThroughoutIff(Step(s, es[0]), es[1..]);
      }
    }
  }

  lemma SafeFromStartIff(maxQueue: nat, es: seq<Event>)
    ensures SafeThroughout(Init(maxQueue), es) <==> Clean(Init(maxQueue), es)
  {
    SafeThroughoutIff(Init(maxQueue), es);
  }

  // ---------- the exact price of a failed write ----------

  /** Nothing is written any more, whatever happens short of a force close. */
  ghost predicate Silent(s: State) {
    forall es, t :: Runs(s, es, t) && NoForce(es) ==> t.hist.written == s.hist.written
  }

  lemma {:induction false} RunsKeepSilence(s: State, es: seq<Event>, t: State)
    requires InHandler(s) && Runs(s, es, t) && NoForce(es)
    ensures t.hist.written == s.hist.written
    decreases |es|
  {
    if es != [] {
      assert es[0].Call? && NoForceEvent(es[0]);
      assert forall i :: 0 <= i < |es| - 1 ==> es[1..][i] == es[i + 1];
      RunsKeepSilence(Step(s, es[0]), es[1..], t);
    }
  }

  /** A queue is silent exactly when writing_ is set although nothing is out. */
  lemma SilentIff(s: State)
    ensures Silent(s) <==> s.writing && s.outstanding == []
  {
    if s.writing && s.outstanding == [] {
      forall es, t | Runs(s, es, t) && NoForce(es)
        ensures t.hist.written == s.hist.written
      {
        RunsKeepSilence(s, es, t);
      }
    } else {
      var es, u := SendUnlimited(s);
      if s.writing {
        var more := [Complete(0, true, [])];
        var t := Step(u, more[0]);
        assert more[1..] == [];
        assert Runs(t, more[1..], t);
        assert Runs(u, more, t);
        RunsAppend(s, es, u, more, t);
        assert |t.hist.written| == |s.hist.written| + 1;
      } else {
        assert |u.hist.written| == |s.hist.written| + 1;
      }
    }
  }

  lemma {:induction false} RunsAppend(s: State, es: seq<Event>, u: State, more: seq<Event>, t: State)
    requires Runs(s, es, u) && Runs(u, more, t)
    ensures Runs(s, es + more, t)
    decreases |es|
  {
    if es == [] {
      assert es + more == more;
    } else {
      RunsAppend(Step(s, es[0]), es[1..], u, more, t);
      assert (es + more)[1..] == es[1..] + more;
    }
  }

  lemma {:induction false} DoOpsKeepOut(s: State, ops: seq<Op>)
    requires NoForceOps(ops) && !InHandler(s)
    ensures !InHandler(DoOps(s, ops))
    decreases |ops|
  {
    if ops != [] {
      assert forall i :: 0 <= i < |ops| - 1 ==> ops[1..][i] == ops[i + 1];
      DoOpsKeepOut(DoOp(s, ops[0]), ops[1..]);
    }
  }

  /** A failed write silences the queue exactly when it was the only one out and writing_ was set.  An
      earlier force close can falsify either: it resets writing_ and lets a second write out. */
  lemma FailureSilencesIff(s: State, k: nat, nested: seq<Op>)
    requires Enabled(s, Complete(k, false, nested)) && NoForceOps(nested)
    ensures Silent(Step(s, Complete(k, false, nested))) <==> |s.outstanding| == 1 && s.writing
  {
    var d := Delivered(s, k, false);
    assert |d.outstanding| == |s.outstanding| - 1 && d.writing == s.writing;
    SilentIff(Step(s, Complete(k, false, nested)));
    if InHandler(d) {
      DoOpsKeepInHandler(d, nested);
    } else {
      DoOpsKeepOut(d, nested);
    }
  }

  /** A force close revives a silent queue: the next send is written, exactly unless the limit refuses even
      an empty queue's first entry. */
  lemma ForceCloseRevives(s: State, notify: bool)
    requires Silent(s)
    ensures var t := DoOp(DoOp(s, Close(true)), Send(notify));
      t.hist.written == s.hist.written + [Entry(s.hist.next, notify)] <==> !s.limited || s.maxQueue > 0
    ensures !Silent(DoOp(s, Close(true)))
  {
    SilentIff(DoOp(s, Close(true)));
  }

  // ---------- a graceful close changes nothing that is written ----------

  ghost function EraseOps(ops: seq<Op>): seq<Op> {
    if ops == [] then []
    else if ops[0] == Close(false) then EraseOps(ops[1..])
    else [ops[0]] + EraseOps(ops[1..])
  }

  ghost function EraseEvent(e: Event): Event {
    if e.Complete? then Complete(e.k, e.ok, EraseOps(e.nested)) else e
  }

  ghost function Erase(es: seq<Event>): seq<Event> {
    if es == [] then []
    else if es[0] == Call(Close(false)) then Erase(es[1..])
    else [EraseEvent(es[0])] + Erase(es[1..])
  }

  /** Equal but for graceful_shutdown_. */
  ghost predicate Alike(s: State, t: State) { s.(graceful := true) == t.(graceful := true) }

  lemma DoOpAlike(s: State, s': State, op: Op)
    requires Alike(s, s')
    ensures if op == Close(false) then Alike(DoOp(s, op), s') else Alike(DoOp(s, op), DoOp(s', op))
  {
  }

  lemma {:induction false} DoOpsAlike(s: State, s': State, ops: seq<Op>)
    requires Alike(s, s')
    ensures Alike(DoOps(s, ops), DoOps(s', EraseOps(ops)))
    decreases |ops|
  {
    if ops != [] {
      DoOpAlike(s, s', ops[0]);
      hide DoOp, Alike;
      if ops[0] == Close(false) {
        DoOpsAlike(DoOp(s, ops[0]), s', ops[1..]);
      } else {
        var rest := EraseOps(ops[1..]);
        assert ([ops[0]] + rest)[1..] == rest;
        DoOpsAlike(DoOp(s, ops[0]), DoOp(s', ops[0]), ops[1..]);
      }
    }
  }

  lemma ContinuedAlike(s: State, s': State, ok: bool)
    requires Alike(s, s')
    ensures Alike(Continued(s, ok), Continued(s', ok))
  {
  }

  lemma StepAlike(s: State, s': State, e: Event)
    requires Alike(s, s') && Enabled(s, e) && e != Call(Close(false))
    ensures Enabled(s', EraseEvent(e)) && Alike(Step(s, e), Step(s', EraseEvent(e)))
  {
    if e.Complete? {
      var d, d' := Delivered(s, e.k, e.ok), Delivered(s', e.k, e.ok);
      assert Alike(d, d');
      hide Delivered, Continued, Alike, DoOp;
      DoOpsAlike(d, d', e.nested);
      ContinuedAlike(DoOps(d, e.nested), DoOps(d', EraseOps(e.nested)), e.ok);
    } else {
      DoOpAlike(s, s', e.op);
    }
  }

  lemma {:induction false} GracefulCloseErasable(s: State, s': State, es: seq<Event>, t: State) returns (t': State)
    requires Alike(s, s') && Runs(s, es, t)
    ensures Runs(s', Erase(es), t') && Alike(t, t')
    decreases |es|
  {
    if es == [] {
      t' := s';
    } else if es[0] == Call(Close(false)) {
      t' := GracefulCloseErasable(Step(s, es[0]), s', es[1..], t);
    } else {
      StepAlike(s, s', es[0]);
      hide Step, Enabled;
      assert Erase(es)[1..] == Erase(es[1..]);
      t' := GracefulCloseErasable(Step(s, es[0]), Step(s', EraseEvent(es[0])), es[1..], t);
    }
  }

  /** Erasing every graceful close from a run leaves the written sequence, the handlers that fired, and
      everything else but the flag as they were: a graceful close refuses nothing. */
  lemma GracefulCloseIsInvisible(maxQueue: nat, es: seq<Event>, t: State)
    requires Runs(Init(maxQueue), es, t)
    ensures exists t' :: Runs(Init(maxQueue), Erase(es), t') && t'.hist == t.hist && t'.queue == t.queue
  {
    var t' := GracefulCloseErasable(Init(maxQueue), Init(maxQueue), es, t);
  }
}
