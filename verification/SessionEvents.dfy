/** What a session does with each send, close and read, told by the events of a run. */
module SessionEvents {
  import opened SessionModel

  // ---------- sends ----------

  /** A framed send is handed to the stream at once if no write is in progress, and goes to the end of the
      deque otherwise; an unframed one changes nothing. */
  lemma SendIsQueued(s: State, frames: bool)
    requires Reachable(s)
    ensures var t := DoOp(s, Send(frames)); var n := |s.hist.accepted|;
      if !frames then t == s
      else && t.hist.accepted == s.hist.accepted + [n] && t.writing
           && if s.writing then t.deque == s.deque + [n] && t.hist.written == s.hist.written
              else t.deque == [] && t.hist.written == s.hist.written + [n] && t.outstanding == s.outstanding + [n]
  {
    ReachableKeep(s);
  }

  ghost function FramedIn(ops: seq<Op>): nat {
    if ops == [] then 0 else (if ops[0] == Send(true) then 1 else 0) + FramedIn(ops[1..])
  }

  /** The framed sends that an event performs: by callers; by message handlers while the session runs; and by
      the disconnect handler of the failure that ends it. */
  ghost function SendsAt(s: State, e: Event): nat {
    match e
    case Call(op) => FramedIn([op])
    case WriteDone(_, ok, calls) => if !ok && !s.shutdown && s.notifies then FramedIn(calls) else 0
    case ReadDone(ok, calls) => if !s.shutdown && (ok || s.notifies) then FramedIn(calls) else 0
    case TimerFired(calls) => if !s.shutdown && s.notifies then FramedIn(calls) else 0
  }

  ghost function Sends(s: State, es: seq<Event>, t: State): nat
    requires Runs(s, es, t)
    decreases |es|
  {
    if es == [] then 0 else SendsAt(s, es[0]) + Sends(Step(s, es[0]), es[1..], t)
  }

  lemma DoOpAccepts(s: State, op: Op)
    ensures |DoOp(s, op).hist.accepted| == |s.hist.accepted| + FramedIn([op])
  {
    assert [op][1..] == [];
  }

  lemma {:induction false} DoOpsAccept(s: State, ops: seq<Op>)
    ensures |DoOps(s, ops).hist.accepted| == |s.hist.accepted| + FramedIn(ops)
    decreases |ops|
  {
    if ops != [] {
      DoOpAccepts(s, ops[0]);
      assert [ops[0]][1..] == [];
      DoOpsAccept(DoOp(s, ops[0]), ops[1..]);
    }
  }

  lemma ShutDownAccepts(s: State, calls: seq<Op>)
    ensures |ShutDown(s, calls).hist.accepted|
            == |s.hist.accepted| + if !s.shutdown && s.notifies then FramedIn(calls) else 0
  {
    var f := Flagged(s);
    DoOpsAccept(f.(hist := f.hist.(disconnects := f.hist.disconnects + 1)), calls);
  }

  lemma WriteDoneAccepts(s: State, k: nat, ok: bool, calls: seq<Op>)
    requires k < |s.outstanding|
    ensures |Step(s, WriteDone(k, ok, calls)).hist.accepted|
            == |s.hist.accepted| + SendsAt(s, WriteDone(k, ok, calls))
  {
    if !ok {
      ShutDownAccepts(s.(outstanding := s.outstanding[..k] + s.outstanding[k + 1..]), calls);
      hide ShutDown;
    }
  }

  lemma ReadDoneAccepts(s: State, ok: bool, calls: seq<Op>)
    requires s.reading > 0
    ensures |Step(s, ReadDone(ok, calls)).hist.accepted| == |s.hist.accepted| + SendsAt(s, ReadDone(ok, calls))
  {
    DoOpsAccept(s.(reading := s.reading - 1), calls);
    ShutDownAccepts(s.(reading := s.reading - 1), calls);
    hide ShutDown, DoOps, FramedIn;
  }

  lemma StepAccepts(s: State, e: Event)
    requires Enabled(s, e)
    ensures |Step(s, e).hist.accepted| == |s.hist.accepted| + SendsAt(s, e)
  {
    match e
    case Call(op) => DoOpAccepts(s, op);
    case WriteDone(k, ok, calls) => WriteDoneAccepts(s, k, ok, calls);
    case ReadDone(ok, calls) => ReadDoneAccepts(s, ok, calls);
    case TimerFired(calls) =>
      ShutDownAccepts(s, calls);
      hide ShutDown;
  }

  /** No framed send is refused or forgotten: a run accepts as many messages as it performs framed sends. */
  lemma {:induction false} EverySendIsAccepted(s: State, es: seq<Event>, t: State)
    requires Runs(s, es, t)
    ensures |t.hist.accepted| == |s.hist.accepted| + Sends(s, es, t)
    decreases |es|
  {
    if es != [] {
      StepAccepts(s, es[0]);
      EverySendIsAccepted(Step(s, es[0]), es[1..], t);
    }
  }

  /** In a run without error, timeout or forced close, once no write is out exactly as many messages have been
      written, and their writes completed, as there were framed sends. */
  lemma PeacefulRunWritesAll(notifies: bool, es: seq<Event>, t: State)
    requires Runs(Init(notifies), es, t) && AllPeaceful(es) && t.outstanding == []
    ensures |t.hist.written| == |t.hist.completed| == Sends(Init(notifies), es, t)
  {
    EverySendIsAccepted(Init(notifies), es, t);
    RunsKeepDraining(Init(notifies), es, t);
    hide Runs, Sends, AllPeaceful;
    assert t.hist.accepted == t.hist.written + t.deque;
  }

  /** A completed write is followed by the next message of the deque, in order, or by none, which also
      completes a graceful close. */
  lemma NextIsWritten(s: State, k: nat, calls: seq<Op>)
    requires Reachable(s) && Enabled(s, WriteDone(k, true, calls))
    ensures var t := Step(s, WriteDone(k, true, calls));
      if s.deque != []
      then t.hist.written == s.hist.written + [s.deque[0]] && t.deque == s.deque[1..] && t.writing
           && t.shutdown == s.shutdown
      else t.hist.written == s.hist.written && !t.writing && (t.shutdown <==> s.shutdown || s.graceful)
  {
  }

  // ---------- closes and failures ----------

  /** A forced close ends a running session at once: the socket is closed and nothing waits any more.  A
      graceful one does so exactly if no write is in progress, and waits otherwise. */
  lemma CloseTakesEffect(s: State, force: bool)
    requires Reachable(s) && !s.shutdown
    ensures var t := DoOp(s, Close(force));
      && (t.shutdown <==> force || !s.writing) && (t.socketClosed <==> t.shutdown)
      && (if t.shutdown then t.deque == [] && t.hist.discarded == s.hist.discarded + s.deque
          else t.graceful && t.deque == s.deque && t.writing)
  {
    ReachableKeep(s);
    assert !s.writing ==> s.deque == [] && s.hist.discarded + [] == s.hist.discarded;
  }

  /** A failure ends a running session: nothing waits, the framer is gone, and the disconnect handler, if
      there is one, has been told once. */
  lemma FailureEnds(s: State, e: Event)
    requires Reachable(s) && !s.shutdown && Enabled(s, e) && Failing(e)
    ensures var t := Step(s, e);
      t.shutdown && t.deque == [] && !t.framer && t.hist.disconnects == if s.notifies then 1 else 0
  {
    ReachableKeep(s);
    StepKeepsConsistent(s, e);
    match e
    case WriteDone(k, ok, calls) =>
      FailedShutDown(s.(outstanding := s.outstanding[..k] + s.outstanding[k + 1..]), calls);
    case ReadDone(ok, calls) => FailedShutDown(s.(reading := s.reading - 1), calls);
    case TimerFired(calls) => FailedShutDown(s, calls);
  }

  lemma FailedShutDown(s: State, calls: seq<Op>)
    requires Consistent(s) && !s.shutdown
    ensures var t := ShutDown(s, calls);
      t.shutdown && t.deque == [] && !t.framer && t.hist.disconnects == if s.notifies then 1 else 0
  {
    ShutDownKeepsConsistent(s, calls);
    CauseIsError(s, calls);
  }

  lemma CauseIsError(s: State, calls: seq<Op>)
    requires Consistent(s) && !s.shutdown
    ensures ShutDown(s, calls).hist.cause.ErrorPath? && ShutDown(s, calls).notifies == s.notifies
  {
    var f := Flagged(s);
    var r := f.(hist := f.hist.(disconnects := f.hist.disconnects + 1));
    if s.notifies {
      DoOpsKeepsConsistent(r, calls);
    }
  }

  // ---------- reads ----------

  lemma StepKeepsReading(s: State, e: Event)
    requires Consistent(s) && Enabled(s, e) && (!s.shutdown ==> s.reading == 1)
    ensures !Step(s, e).shutdown ==> Step(s, e).reading == 1
    ensures !Step(s, e).shutdown && e.ReadDone? && e.ok ==>
              Step(s, e).hist.readsStarted == s.hist.readsStarted + 1
  {
    match e
    case Call(op) => DoOpKeepsConsistent(s, op);
    case WriteDone(k, ok, calls) =>
      ShutDownKeepsConsistent(s.(outstanding := s.outstanding[..k] + s.outstanding[k + 1..]), calls);
      hide ShutDown;
    case ReadDone(ok, calls) =>
      DoOpsKeepsConsistent(s.(reading := s.reading - 1), calls);
      ShutDownKeepsConsistent(s.(reading := s.reading - 1), calls);
      hide ShutDown, DoOps;
    case TimerFired(calls) => ShutDownKeepsConsistent(s, calls);
  }

  lemma {:induction false} RunsKeepReading(s: State, es: seq<Event>, t: State)
    requires Consistent(s) && Runs(s, es, t) && (!s.shutdown ==> s.reading == 1)
    ensures !t.shutdown ==> t.reading == 1
    decreases |es|
  {
    if es != [] {
      StepKeepsReading(s, es[0]);
      StepKeepsConsistent(s, es[0]);
      RunsKeepReading(Step(s, es[0]), es[1..], t);
    }
  }

  /** A running session always has exactly one read out, so every read that brings data is followed by the
      next one. */
  lemma AlwaysReading(s: State)
    requires Reachable(s) && !s.shutdown
    ensures s.reading == 1
  {
    var es :| Runs(Init(s.notifies), es, s);
    RunsKeepReading(Init(s.notifies), es, s);
  }
}
