/** A session on its direct write path.  Handlers run one at a time, and a close issued inside a
    handler runs inline.  Message and disconnect handlers may call back into the session. */
module SessionModel {

  /** A send that the interceptor drops or that fails to frame reaches no queue. */
  datatype Op = Send(frames: bool) | Close(force: bool)

  datatype Event =
    | Call(op: Op)
    | WriteDone(k: nat, ok: bool, calls: seq<Op>)
    | ReadDone(ok: bool, calls: seq<Op>)
    | TimerFired(calls: seq<Op>)

  /** Who set the shutdown flag: a forced close from outside, the session's own close after a drain,
      or the error and timeout path. */
  datatype Cause = Running | UserClose | SelfClose | ErrorPath

  datatype History = History(
    accepted: seq<nat>, written: seq<nat>, completed: seq<nat>, discarded: seq<nat>,
    readsStarted: nat, disconnects: nat, cause: Cause, cut: nat)

  datatype State = State(
    notifies: bool,                               // a disconnect handler was given
    deque: seq<nat>, writing: bool, shutdown: bool, graceful: bool, framer: bool,
    outstanding: seq<nat>, reading: nat, socketClosed: bool,
    hist: History)

  /** The state after Start: one read is out. */
  ghost function Init(notifies: bool): State {
    State(notifies, [], false, false, false, true, [], 1, false, History([], [], [], [], 1, 0, Running, 0))
  }

  ghost function ForceClosed(s: State, cause: Cause): State {
    if s.shutdown then s
    else
      s.(shutdown := true, socketClosed := true, deque := [],
         hist := s.hist.(discarded := s.hist.discarded + s.deque, cause := cause, cut := |s.hist.accepted|))
  }

  ghost function WriteNext(s: State): State {
    if s.deque == [] then
      var t := s.(writing := false);
      if s.graceful then ForceClosed(t, SelfClose) else t
    else
      s.(writing := true, deque := s.deque[1..], outstanding := s.outstanding + [s.deque[0]],
         hist := s.hist.(written := s.hist.written + [s.deque[0]]))
  }

  ghost function Accepted(s: State): State {
    s.(deque := s.deque + [|s.hist.accepted|],
       hist := s.hist.(accepted := s.hist.accepted + [|s.hist.accepted|]))
  }

  ghost function DoOp(s: State, op: Op): State {
    match op
    case Send(frames) =>
      if !frames then s
      else if s.writing then Accepted(s)
      else WriteNext(Accepted(s))
    case Close(force) =>
      if force then ForceClosed(s, UserClose)
      else if s.shutdown then s
      else
        var t := s.(graceful := true);
        if !s.writing && s.deque == [] then ForceClosed(t, SelfClose) else t
  }

  ghost function DoOps(s: State, ops: seq<Op>): State
    decreases |ops|
  {
    if ops == [] then s else DoOps(DoOp(s, ops[0]), ops[1..])
  }

  ghost function Flagged(s: State): State {
    s.(shutdown := true, hist := s.hist.(cause := ErrorPath, cut := |s.hist.accepted|))
  }

  /** The disconnect handler, if there is one, is told, and makes these calls. */
  ghost function Told(s: State, calls: seq<Op>): State {
    if s.notifies then DoOps(s.(hist := s.hist.(disconnects := s.hist.disconnects + 1)), calls) else s
  }

  ghost function CleanedUp(s: State): State {
    s.(deque := [], framer := false, hist := s.hist.(discarded := s.hist.discarded + s.deque))
  }

  /** The shutdown of the error path: the flag is set first, so the forced close it then asks for
      returns at once; `calls` are made by the disconnect handler. */
  ghost function ShutDown(s: State, calls: seq<Op>): State {
    if s.shutdown then s else CleanedUp(ForceClosed(Told(Flagged(s), calls), UserClose))
  }

  ghost function StartRead(s: State): State {
    if s.shutdown then s
    else s.(reading := s.reading + 1, hist := s.hist.(readsStarted := s.hist.readsStarted + 1))
  }

  /** A send without a framer would dereference null; the other calls are always allowed. */
  ghost predicate OpAllowed(s: State, op: Op) { op.Send? ==> s.framer }

  ghost predicate Enabled(s: State, e: Event) {
    match e
    case Call(op) => OpAllowed(s, op)
    case WriteDone(k, _, _) => k < |s.outstanding|
    case ReadDone(_, _) => s.reading > 0
    case TimerFired(_) => true
  }

  ghost function WriteCompleted(s: State, k: nat): State
    requires k < |s.outstanding|
  {
    s.(outstanding := s.outstanding[..k] + s.outstanding[k + 1..],
       hist := s.hist.(completed := s.hist.completed + [s.outstanding[k]]))
  }

  ghost function Step(s: State, e: Event): State
    requires Enabled(s, e)
  {
    match e
    case Call(op) => DoOp(s, op)
    case WriteDone(k, ok, calls) =>
      if ok then WriteNext(WriteCompleted(s, k).(writing := false))
      else ShutDown(s.(outstanding := s.outstanding[..k] + s.outstanding[k + 1..]), calls)
    case ReadDone(ok, calls) =>
      var t := s.(reading := s.reading - 1);
      if s.shutdown then t
      else if ok then StartRead(DoOps(t, calls))
      else ShutDown(t, calls)
    case TimerFired(calls) => ShutDown(s, calls)
  }

  ghost predicate Runs(s: State, es: seq<Event>, t: State)
    decreases |es|
  {
    if es == [] then s == t else Enabled(s, es[0]) && Runs(Step(s, es[0]), es[1..], t)
  }

  ghost predicate Reachable(s: State) { exists es :: Runs(Init(s.notifies), es, s) }

  // ---------- every run ----------

  ghost predicate Increasing(xs: seq<nat>) { forall i, j :: 0 <= i < j < |xs| ==> xs[i] < xs[j] }

  /** The writes are an in-order selection of the accepted messages, one at a time. */
  ghost predicate Orderly(s: State) {
    && (forall i :: 0 <= i < |s.hist.accepted| ==> s.hist.accepted[i] == i)
    && Increasing(s.hist.written + s.deque)
    && (forall i :: 0 <= i < |s.hist.written + s.deque| ==> (s.hist.written + s.deque)[i] < |s.hist.accepted|)
    && |s.outstanding| <= 1 && (s.outstanding != [] ==> s.writing)
    && (!s.writing ==> s.deque == [])
  }

  /** The shutdown flag, its cause, the socket and the disconnect handler go together. */
  ghost predicate Consistent(s: State) {
    && (s.shutdown <==> !s.hist.cause.Running?)
    && (s.socketClosed <==> s.hist.cause.UserClose? || s.hist.cause.SelfClose?)
    && s.hist.disconnects == (if s.notifies && s.hist.cause.ErrorPath? then 1 else 0)
    && (s.graceful && !s.shutdown ==> s.writing)
    && (!s.writing ==> s.deque == [])
    && s.reading <= 1 && s.hist.readsStarted > 0
    && (!s.framer ==> s.shutdown)
  }

  lemma DoOpKeepsOrderly(s: State, op: Op)
    requires Orderly(s)
    ensures Orderly(DoOp(s, op))
  {
    match op
    case Send(frames) =>
      if frames {
        var t := Accepted(s);
        assert t.hist.written + t.deque == (s.hist.written + s.deque) + [|s.hist.accepted|];
        if !s.writing {
          WriteNextKeepsOrderly(t);
        }
      }
    case Close(force) => ClearKeepsOrderly(s);
  }

  lemma WriteNextKeepsOrderly(s: State)
    requires forall i :: 0 <= i < |s.hist.accepted| ==> s.hist.accepted[i] == i
    requires Increasing(s.hist.written + s.deque)
    requires forall i :: 0 <= i < |s.hist.written + s.deque| ==> (s.hist.written + s.deque)[i] < |s.hist.accepted|
    requires s.outstanding == []
    ensures Orderly(WriteNext(s))
  {
    if s.deque != [] {
      var t := WriteNext(s);
      assert t.hist.written + t.deque == s.hist.written + s.deque;
    }
  }

  lemma ClearKeepsOrderly(s: State)
    requires Orderly(s)
    ensures Orderly(s.(deque := []))
  {
    var all := s.hist.written + s.deque;
    assert s.hist.written + [] == s.hist.written;
    assert forall i :: 0 <= i < |s.hist.written| ==> s.hist.written[i] == all[i];
  }

  lemma {:induction false} DoOpsKeepsOrderly(s: State, ops: seq<Op>)
    requires Orderly(s)
    ensures Orderly(DoOps(s, ops))
    decreases |ops|
  {
    if ops != [] {
      DoOpKeepsOrderly(s, ops[0]);
      DoOpsKeepsOrderly(DoOp(s, ops[0]), ops[1..]);
    }
  }

  lemma FlaggedKeepsOrderly(s: State)
    requires Orderly(s)
    ensures Orderly(Flagged(s)) && Orderly(s.(hist := s.hist.(disconnects := s.hist.disconnects + 1)))
  {
  }

  lemma ClosedKeepsOrderly(s: State, cause: Cause)
    requires Orderly(s)
    ensures Orderly(ForceClosed(s, cause)) && Orderly(CleanedUp(s))
  {
    ClearKeepsOrderly(s);
  }

  lemma ShutDownKeepsOrderly(s: State, calls: seq<Op>)
    requires Orderly(s)
    ensures Orderly(ShutDown(s, calls))
  {
    hide Orderly, Flagged, CleanedUp, ForceClosed;
    if !s.shutdown {
      var f := Flagged(s);
      FlaggedKeepsOrderly(s);
      FlaggedKeepsOrderly(f);
      DoOpsKeepsOrderly(f.(hist := f.hist.(disconnects := f.hist.disconnects + 1)), calls);
      ClosedKeepsOrderly(Told(f, calls), UserClose);
      ClosedKeepsOrderly(ForceClosed(Told(f, calls), UserClose), UserClose);
    }
  }

  lemma StepKeepsOrderly(s: State, e: Event)
    requires Orderly(s) && Enabled(s, e)
    ensures Orderly(Step(s, e))
  {
    match e
    case Call(op) => DoOpKeepsOrderly(s, op);
    case WriteDone(k, ok, calls) =>
      var t := WriteCompleted(s, k).(writing := false);
      var u := s.(outstanding := s.outstanding[..k] + s.outstanding[k + 1..]);
      assert t.outstanding == [] == u.outstanding;
      if ok {
        WriteNextKeepsOrderly(t);
      } else {
        ShutDownKeepsOrderly(u, calls);
      }
    case ReadDone(ok, calls) =>
      var t := s.(reading := s.reading - 1);
      DoOpsKeepsOrderly(t, calls);
      ShutDownKeepsOrderly(t, calls);
    case TimerFired(calls) => ShutDownKeepsOrderly(s, calls);
  }

  /** A call keeps the flags consistent, starts no read, and once the flag is set leaves it alone. */
  lemma DoOpKeepsConsistent(s: State, op: Op)
    requires Consistent(s)
    ensures var t := DoOp(s, op);
      && Consistent(t) && t.notifies == s.notifies
      && t.reading == s.reading && t.hist.readsStarted == s.hist.readsStarted
      && (s.shutdown ==> t.shutdown && t.hist.cause == s.hist.cause)
  {
  }

  lemma {:induction false} DoOpsKeepsConsistent(s: State, ops: seq<Op>)
    requires Consistent(s)
    ensures var t := DoOps(s, ops);
      && Consistent(t) && t.notifies == s.notifies
      && t.reading == s.reading && t.hist.readsStarted == s.hist.readsStarted
      && (s.shutdown ==> t.shutdown && t.hist.cause == s.hist.cause)
    decreases |ops|
  {
    if ops != [] {
      DoOpKeepsConsistent(s, ops[0]);
      DoOpsKeepsConsistent(DoOp(s, ops[0]), ops[1..]);
    }
  }

  lemma ShutDownKeepsConsistent(s: State, calls: seq<Op>)
    requires Consistent(s)
    ensures var t := ShutDown(s, calls);
      && Consistent(t) && t.shutdown && t.notifies == s.notifies
      && t.hist.readsStarted == s.hist.readsStarted
      && (s.shutdown ==> t == s)
  {
    if !s.shutdown && s.notifies {
      var flagged := s.(shutdown := true, hist := s.hist.(cause := ErrorPath, cut := |s.hist.accepted|));
      DoOpsKeepsConsistent(flagged.(hist := flagged.hist.(disconnects := flagged.hist.disconnects + 1)), calls);
    }
  }

  lemma WriteDoneKeepsConsistent(s: State, k: nat, ok: bool, calls: seq<Op>)
    requires Consistent(s) && k < |s.outstanding|
    ensures var t := Step(s, WriteDone(k, ok, calls));
      && Consistent(t) && t.notifies == s.notifies
      && (s.shutdown ==> t.shutdown && t.hist.cause == s.hist.cause && t.hist.readsStarted == s.hist.readsStarted)
  {
    hide ShutDown;
    if !ok {
      var u := s.(outstanding := s.outstanding[..k] + s.outstanding[k + 1..]);
      ShutDownKeepsConsistent(u, calls);
    }
  }

  lemma ReadDoneKeepsConsistent(s: State, ok: bool, calls: seq<Op>)
    requires Consistent(s) && s.reading > 0
    ensures var t := Step(s, ReadDone(ok, calls));
      && Consistent(t) && t.notifies == s.notifies
      && (s.shutdown ==> t.shutdown && t.hist.cause == s.hist.cause && t.hist.readsStarted == s.hist.readsStarted)
  {
    hide ShutDown, DoOps;
    var t := s.(reading := s.reading - 1);
    DoOpsKeepsConsistent(t, calls);
    ShutDownKeepsConsistent(t, calls);
  }

  lemma StepKeepsConsistent(s: State, e: Event)
    requires Consistent(s) && Enabled(s, e)
    ensures var t := Step(s, e);
      && Consistent(t) && t.notifies == s.notifies
      && (s.shutdown ==> t.shutdown && t.hist.cause == s.hist.cause && t.hist.readsStarted == s.hist.readsStarted)
  {
    match e
    case Call(op) => DoOpKeepsConsistent(s, op);
    case WriteDone(k, ok, calls) =>
      WriteDoneKeepsConsistent(s, k, ok, calls);
    case ReadDone(ok, calls) =>
      ReadDoneKeepsConsistent(s, ok, calls);
    case TimerFired(calls) =>
      ShutDownKeepsConsistent(s, calls);
  }

  lemma {:induction false} RunsKeep(s: State, es: seq<Event>, t: State)
    requires Orderly(s) && Consistent(s) && Runs(s, es, t)
    ensures Orderly(t) && Consistent(t)
    ensures s.shutdown ==> t.shutdown && t.hist.cause == s.hist.cause && t.hist.readsStarted == s.hist.readsStarted
    decreases |es|
  {
    if es != [] {
      StepKeepsOrderly(s, es[0]);
      StepKeepsConsistent(s, es[0]);
      RunsKeep(Step(s, es[0]), es[1..], t);
    }
  }

  lemma ReachableKeep(s: State)
    requires Reachable(s)
    ensures Orderly(s) && Consistent(s)
  {
    var es :| Runs(Init(s.notifies), es, s);
    RunsKeep(Init(s.notifies), es, s);
  }

  // ---------- main results for every run ----------

  /** The direct path writes one message at a time and in order in every run, forced closes, errors and
      re-entrant handlers included. */
  lemma DirectWritesInOrder(s: State)
    requires Reachable(s)
    ensures Increasing(s.hist.written) && |s.outstanding| <= 1
    ensures forall i :: 0 <= i < |s.hist.written| ==>
              s.hist.written[i] < |s.hist.accepted| && s.hist.accepted[s.hist.written[i]] == s.hist.written[i]
    ensures !s.writing ==> s.deque == []
  {
    ReachableKeep(s);
    var all := s.hist.written + s.deque;
    assert forall i :: 0 <= i < |s.hist.written| ==> s.hist.written[i] == all[i];
  }

  /** Once the shutdown flag is set, either the socket has been closed or the disconnect handler has
      been told, and never both: the error path's own forced close does nothing because the flag is
      already set, and a close never reports. */
  lemma ClosedXorReported(s: State)
    requires Reachable(s)
    ensures s.hist.disconnects <= 1
    ensures s.socketClosed ==> s.shutdown && s.hist.disconnects == 0
    ensures s.notifies && s.shutdown ==> (s.hist.disconnects == 1 <==> !s.socketClosed)
    ensures s.hist.disconnects == 1 <==> s.notifies && s.hist.cause.ErrorPath?
    ensures s.shutdown && !s.socketClosed <==> s.hist.cause.ErrorPath?
  {
    ReachableKeep(s);
  }

  // ---------- which sessions end with an open socket ----------

  /** A timeout, a failed write or a failed read. */
  ghost predicate Failing(e: Event) {
    match e
    case Call(_) => false
    case WriteDone(_, ok, _) => !ok
    case ReadDone(ok, _) => !ok
    case TimerFired(_) => true
  }

  lemma DoOpEndsClosed(s: State, op: Op)
    requires !s.shutdown || s.socketClosed
    ensures !DoOp(s, op).shutdown || DoOp(s, op).socketClosed
  {
  }

  lemma {:induction false} DoOpsEndClosed(s: State, ops: seq<Op>)
    requires !s.shutdown || s.socketClosed
    ensures !DoOps(s, ops).shutdown || DoOps(s, ops).socketClosed
    decreases |ops|
  {
    if ops != [] {
      DoOpEndsClosed(s, ops[0]);
      DoOpsEndClosed(DoOp(s, ops[0]), ops[1..]);
    }
  }

  lemma {:induction false} DoOpsKeepOpen(s: State, ops: seq<Op>)
    requires s.shutdown && !s.socketClosed
    ensures DoOps(s, ops).shutdown && !DoOps(s, ops).socketClosed
    decreases |ops|
  {
    if ops != [] {
      DoOpsKeepOpen(DoOp(s, ops[0]), ops[1..]);
    }
  }

  /** The error path ends a running session and leaves its socket open, with or without a handler. */
  lemma ShutDownLeavesOpen(s: State, calls: seq<Op>)
    requires !s.shutdown && !s.socketClosed
    ensures ShutDown(s, calls).shutdown && !ShutDown(s, calls).socketClosed
  {
    var f := Flagged(s);
    DoOpsKeepOpen(f.(hist := f.hist.(disconnects := f.hist.disconnects + 1)), calls);
  }

  /** An event ends a running session with its socket left open exactly when it is a timeout, a failed write
      or a failed read, whether there is a disconnect handler or not. */
  lemma LeftOpenIff(s: State, e: Event)
    requires Reachable(s) && !s.shutdown && Enabled(s, e)
    ensures Step(s, e).shutdown && !Step(s, e).socketClosed <==> Failing(e)
  {
    ReachableKeep(s);
    StepLeavesOpenIff(s, e);
  }

  lemma StepLeavesOpenIff(s: State, e: Event)
    requires !s.shutdown && !s.socketClosed && Enabled(s, e)
    ensures Step(s, e).shutdown && !Step(s, e).socketClosed <==> Failing(e)
    ensures !Step(s, e).shutdown ==> !Step(s, e).socketClosed
  {
    match e
    case Call(op) => DoOpEndsClosed(s, op);
    case WriteDone(k, ok, calls) =>
      ShutDownLeavesOpen(s.(outstanding := s.outstanding[..k] + s.outstanding[k + 1..]), calls);
    case ReadDone(ok, calls) =>
      DoOpsEndClosed(s.(reading := s.reading - 1), calls);
      DoOpsKeepRunningOpen(s.(reading := s.reading - 1), calls);
      ShutDownLeavesOpen(s.(reading := s.reading - 1), calls);
    case TimerFired(calls) => ShutDownLeavesOpen(s, calls);
  }

  lemma {:induction false} DoOpsKeepRunningOpen(s: State, ops: seq<Op>)
    requires s.socketClosed ==> s.shutdown
    ensures DoOps(s, ops).socketClosed ==> DoOps(s, ops).shutdown
    decreases |ops|
  {
    if ops != [] {
      DoOpsKeepRunningOpen(DoOp(s, ops[0]), ops[1..]);
    }
  }

  /** The event that ends the session is a failing one. */
  ghost predicate EndsByFailure(s: State, es: seq<Event>)
    decreases |es|
  {
    es != [] && Enabled(s, es[0])
    && (Failing(es[0]) || (!Step(s, es[0]).shutdown && EndsByFailure(Step(s, es[0]), es[1..])))
  }

  lemma {:induction false} RunsLeaveOpenIff(s: State, es: seq<Event>, t: State)
    requires Consistent(s) && !s.shutdown && !s.socketClosed && Orderly(s) && Runs(s, es, t)
    ensures t.shutdown && !t.socketClosed <==> EndsByFailure(s, es)
    decreases |es|
  {
    if es != [] {
      var u := Step(s, es[0]);
      StepLeavesOpenIff(s, es[0]);
      StepKeepsConsistent(s, es[0]);
      StepKeepsOrderly(s, es[0]);
      if u.shutdown {
        RunsKeep(u, es[1..], t);
      } else {
        RunsLeaveOpenIff(u, es[1..], t);
      }
    }
  }

  /** Over a whole run: a finished session has left its socket open exactly when the event that ended it was
      a timeout, a failed write or a failed read; whatever closes come later do not make up for it. */
  lemma SocketLeftOpenIff(notifies: bool, es: seq<Event>, t: State)
    requires Runs(Init(notifies), es, t)
    ensures t.shutdown && !t.socketClosed <==> EndsByFailure(Init(notifies), es)
  {
    RunsLeaveOpenIff(Init(notifies), es, t);
  }

  /** A session without a disconnect handler whose idle timer fires, and whose user then asks for a forced
      close, has neither closed its socket nor told anybody. */
  lemma NeitherClosedNorTold() returns (t: State)
    ensures Runs(Init(false), [TimerFired([]), Call(Close(true))], t)
    ensures t.shutdown && !t.socketClosed && t.hist.disconnects == 0
  {
    var u := Step(Init(false), TimerFired([]));
    t := Step(u, Call(Close(true)));
    assert [TimerFired([]), Call(Close(true))][1..] == [Call(Close(true))];
    assert [Call(Close(true))][1..] == [];
    assert Runs(t, [], t);
    assert Runs(u, [Call(Close(true))], t);
  }

  /** After the shutdown flag is set no read starts and the flag's cause never changes. */
  lemma NothingStartsAfterShutdown(s: State, es: seq<Event>, t: State)
    requires Reachable(s) && s.shutdown && Runs(s, es, t)
    ensures t.shutdown && t.hist.cause == s.hist.cause
    ensures t.hist.readsStarted == s.hist.readsStarted && t.socketClosed == s.socketClosed
    ensures t.hist.disconnects == s.hist.disconnects && t.reading <= 1
  {
    ReachableKeep(s);
    RunsKeep(s, es, t);
    RunsKeepNotifies(s, es, t);
  }

  lemma {:induction false} RunsKeepNotifies(s: State, es: seq<Event>, t: State)
    requires Consistent(s) && Runs(s, es, t)
    ensures t.notifies == s.notifies
    decreases |es|
  {
    if es != [] {
      StepKeepsConsistent(s, es[0]);
      RunsKeepNotifies(Step(s, es[0]), es[1..], t);
    }
  }

  /** A graceful close that has not taken effect is waiting for a write, so it cannot be forgotten. */
  lemma GracefulCloseIsPending(s: State)
    requires Reachable(s) && s.graceful && !s.shutdown
    ensures s.writing
  {
    ReachableKeep(s);
  }

  // ---------- graceful drain ----------

  ghost predicate NoForceOps(ops: seq<Op>) { forall i :: 0 <= i < |ops| ==> ops[i] != Close(true) }

  /** No error, no timeout and no forced close from outside. */
  ghost predicate Peaceful(e: Event) {
    match e
    case Call(op) => op != Close(true)
    case WriteDone(_, ok, _) => ok
    case ReadDone(ok, calls) => ok && NoForceOps(calls)
    case TimerFired(_) => false
  }

  ghost predicate AllPeaceful(es: seq<Event>) { forall i :: 0 <= i < |es| ==> Peaceful(es[i]) }

  /** Nothing is lost: completed, out, queued are the accepted messages in order; and if the session
      has closed itself, all that had been accepted by then had been written. */
  ghost predicate Draining(s: State) {
    && s.hist.accepted == s.hist.written + s.deque
    && s.hist.completed + s.outstanding == s.hist.written
    && |s.outstanding| == (if s.writing then 1 else 0)
    && (!s.writing ==> s.deque == [])
    && s.hist.discarded == []
    && (s.shutdown ==> s.hist.cause.SelfClose? && s.graceful && s.hist.cut <= |s.hist.completed|)
  }

  lemma DoOpKeepsDraining(s: State, op: Op)
    requires Draining(s) && op != Close(true)
    ensures Draining(DoOp(s, op))
  {
  }

  lemma {:induction false} DoOpsKeepsDraining(s: State, ops: seq<Op>)
    requires Draining(s) && NoForceOps(ops)
    ensures Draining(DoOps(s, ops))
    decreases |ops|
  {
    if ops != [] {
      DoOpKeepsDraining(s, ops[0]);
      assert forall i :: 0 <= i < |ops| - 1 ==> ops[1..][i] == ops[i + 1];
      DoOpsKeepsDraining(DoOp(s, ops[0]), ops[1..]);
    }
  }

  lemma CompletedDrains(s: State, k: nat)
    requires Draining(s) && k < |s.outstanding|
    ensures var t := WriteCompleted(s, k).(writing := false);
      && t.outstanding == [] && t.hist.completed == t.hist.written == s.hist.written
      && t.hist.accepted == t.hist.written + t.deque && t.hist.discarded == []
      && (t.shutdown ==> t.hist.cause.SelfClose? && t.graceful && t.hist.cut <= |t.hist.completed|)
  {
    assert k == 0 && s.outstanding == [s.outstanding[0]];
  }

  lemma WriteNextDrains(t: State)
    requires !t.writing && t.outstanding == [] && t.hist.completed == t.hist.written
    requires t.hist.accepted == t.hist.written + t.deque && t.hist.discarded == []
    requires t.shutdown ==> t.hist.cause.SelfClose? && t.graceful && t.hist.cut <= |t.hist.completed|
    ensures Draining(WriteNext(t))
  {
    if t.deque != [] {
      var u := WriteNext(t);
      assert u.hist.written + u.deque == t.hist.written + t.deque;
      assert u.outstanding == [t.deque[0]];
    }
  }

  lemma WriteDoneKeepsDraining(s: State, k: nat)
    requires Draining(s) && k < |s.outstanding|
    ensures Draining(WriteNext(WriteCompleted(s, k).(writing := false)))
  {
    CompletedDrains(s, k);
    hide Draining, WriteCompleted, WriteNext;
    WriteNextDrains(WriteCompleted(s, k).(writing := false));
  }

  lemma StepKeepsDraining(s: State, e: Event)
    requires Draining(s) && Enabled(s, e) && Peaceful(e)
    ensures Draining(Step(s, e))
  {
    match e
    case Call(op) => DoOpKeepsDraining(s, op);
    case WriteDone(k, ok, calls) => WriteDoneKeepsDraining(s, k);
    case ReadDone(ok, calls) => DoOpsKeepsDraining(s.(reading := s.reading - 1), calls);
  }

  lemma {:induction false} RunsKeepDraining(s: State, es: seq<Event>, t: State)
    requires Draining(s) && Runs(s, es, t) && AllPeaceful(es)
    ensures Draining(t)
    decreases |es|
  {
    if es != [] {
      StepKeepsDraining(s, es[0]);
      assert forall i :: 0 <= i < |es| - 1 ==> es[1..][i] == es[i + 1];
      RunsKeepDraining(Step(s, es[0]), es[1..], t);
    }
  }

  /** Graceful drain: in a run without error, timeout or forced close, the session closes its socket
      only by itself, and every message accepted before that moment has been written, in order. */
  lemma GracefulDrain(notifies: bool, es: seq<Event>, t: State)
    requires Runs(Init(notifies), es, t) && AllPeaceful(es)
    ensures t.hist.accepted == t.hist.completed + t.outstanding + t.deque && t.hist.discarded == []
    ensures t.shutdown ==> t.graceful && t.socketClosed && t.hist.cause.SelfClose?
    ensures t.shutdown ==>
              t.hist.cut <= |t.hist.accepted| && t.hist.accepted[..t.hist.cut] <= t.hist.completed
    ensures t.graceful && t.outstanding == [] ==> t.shutdown
  {
    var i := Init(notifies);
    RunsKeepDraining(i, es, t);
    RunsKeep(i, es, t);
    hide Runs, Orderly, AllPeaceful, Init;
    assert t.hist.accepted == t.hist.completed + t.outstanding + t.deque;
    if t.shutdown {
      CutIsCompleted(t.hist.completed, t.outstanding, t.deque, t.hist.cut);
    }
  }

  lemma CutIsCompleted(completed: seq<nat>, outstanding: seq<nat>, deque: seq<nat>, cut: nat)
    requires cut <= |completed|
    ensures (completed + outstanding + deque)[..cut] <= completed
  {
    assert (completed + outstanding + deque)[..cut] == completed[..cut];
  }
}
