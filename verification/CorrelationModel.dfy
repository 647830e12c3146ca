/** Request correlation in the client: requesters, their timeouts and the reader race for the entries
    of a shared map, and count them in a separate atomic. */
module CorrelationModel {
  import opened Sums

  const WORD: nat := 0x1_0000_0000_0000_0000

  /** How far SendRequest has got: id drawn, entry inserted, counter incremented, timer armed. */
  datatype Stage = Drawn | Inserted | Counted | Armed

  /** A timer's handler, from the removal of the entry to the callback. */
  datatype TimerPc = Waiting | Erased | Discounted | Finished

  datatype Request = Request(cid: nat, hasHandler: bool, stage: Stage, timer: TimerPc)

  datatype ReaderPc = Idle | Erasing(k: nat) | Answering(k: nat)

  datatype How = TimedOut | Answered

  /** A request settled; a null handler is settled without being called. */
  datatype Settled = Settled(k: nat, how: How, called: bool)

  datatype State = State(
    next: nat, pending: map<nat, nat>, counter: nat,
    requests: seq<Request>, reader: ReaderPc,
    settled: seq<Settled>, unmatched: seq<nat>)

  datatype Action =
    | Draw(hasHandler: bool) | Insert(k: nat) | Count(k: nat) | Arm(k: nat)
    | Fire(k: nat) | TimerDiscount(k: nat) | TimerCall(k: nat)
    | Respond(cid: nat) | ReaderDiscount | ReaderCall

  ghost function Init(): State { State(1, map[], 0, [], Idle, [], []) }

  ghost predicate Enabled(s: State, a: Action) {
    match a
    case Draw(_) => true
    case Insert(k) => k < |s.requests| && s.requests[k].stage.Drawn?
    case Count(k) => k < |s.requests| && s.requests[k].stage.Inserted?
    case Arm(k) => k < |s.requests| && s.requests[k].stage.Counted?
    case Fire(k) => k < |s.requests| && s.requests[k].stage.Armed? && s.requests[k].timer.Waiting?
    case TimerDiscount(k) => k < |s.requests| && s.requests[k].timer.Erased?
    case TimerCall(k) => k < |s.requests| && s.requests[k].timer.Discounted?
    case Respond(_) => s.reader.Idle?
    case ReaderDiscount => s.reader.Erasing?
    case ReaderCall => s.reader.Answering?
  }

  ghost function WithTimer(s: State, k: nat, pc: TimerPc): State
    requires k < |s.requests|
  {
    s.(requests := s.requests[k := s.requests[k].(timer := pc)])
  }

  ghost function WithStage(s: State, k: nat, stage: Stage): State
    requires k < |s.requests|
  {
    s.(requests := s.requests[k := s.requests[k].(stage := stage)])
  }

  ghost function Minus(n: nat): nat { (n + WORD - 1) % WORD }

  /** The handler of request k, if it has one, is called with this outcome. */
  ghost function Settle(s: State, k: nat, how: How): State {
    s.(settled := s.settled + [Settled(k, how, k < |s.requests| && s.requests[k].hasHandler)])
  }

  ghost function Step(s: State, a: Action): State
    requires Enabled(s, a)
  {
    match a
    case Draw(hasHandler) =>
      s.(next := (s.next + 1) % WORD,
         requests := s.requests + [Request(s.next, hasHandler, Drawn, Waiting)])
    case Insert(k) =>
      var cid := s.requests[k].cid;
      WithStage(s, k, Inserted).(pending := if cid in s.pending then s.pending else s.pending[cid := k])
    case Count(k) => WithStage(s, k, Counted).(counter := (s.counter + 1) % WORD)
    case Arm(k) => WithStage(s, k, Armed)
    case Fire(k) =>
      var cid := s.requests[k].cid;
      if cid in s.pending then WithTimer(s, k, Erased).(pending := s.pending - {cid})
      else WithTimer(s, k, Finished)
    case TimerDiscount(k) => WithTimer(s, k, Discounted).(counter := Minus(s.counter))
    case TimerCall(k) => Settle(WithTimer(s, k, Finished), k, TimedOut)
    case Respond(cid) =>
      if cid !in s.pending then s.(unmatched := s.unmatched + [cid])
      else
        var k := s.pending[cid];
        var t := s.(pending := s.pending - {cid});
        if k < |s.requests| && s.requests[k].hasHandler then t.(reader := Erasing(k))
        else Settle(t, k, Answered).(unmatched := s.unmatched + [cid])
    case ReaderDiscount => s.(reader := Answering(s.reader.k), counter := Minus(s.counter))
    case ReaderCall => Settle(s, s.reader.k, Answered).(reader := Idle)
  }

  ghost predicate Runs(s: State, acts: seq<Action>, t: State)
    decreases |acts|
  {
    if acts == [] then s == t else Enabled(s, acts[0]) && Runs(Step(s, acts[0]), acts[1..], t)
  }

  /** Fewer ids have been drawn than there are, so no id has been used twice. */
  ghost predicate NoWrap(s: State) { |s.requests| < WORD }

  ghost predicate Reachable(s: State) { NoWrap(s) && exists acts :: Runs(Init(), acts, s) }

  // ---------- ids and the map ----------

  /** Request k has id k + 1, and the map holds requests under their ids once they are inserted. */
  ghost predicate Ids(s: State) {
    && s.next == (|s.requests| + 1) % WORD
    && (forall k :: 0 <= k < |s.requests| ==> s.requests[k].cid == k + 1)
    && (forall cid {:trigger s.pending[cid]} :: cid in s.pending ==>
          && 0 < cid <= |s.requests| && s.pending[cid] == cid - 1
          && !s.requests[cid - 1].stage.Drawn?)
    && (s.reader.Idle? || (s.reader.k < |s.requests| && s.requests[s.reader.k].hasHandler
                           && !s.requests[s.reader.k].stage.Drawn?))
    && (forall k :: 0 <= k < |s.requests| && !s.requests[k].timer.Waiting? ==> s.requests[k].stage.Armed?)
  }

  lemma RequesterKeepsIds(s: State, a: Action)
    requires a.Draw? || a.Insert? || a.Count? || a.Arm?
    requires Ids(s) && NoWrap(s) && Enabled(s, a)
    ensures Ids(Step(s, a)) || !NoWrap(Step(s, a))
    ensures |s.requests| <= |Step(s, a).requests|
  {
  }

  lemma TimerKeepsIds(s: State, a: Action)
    requires a.Fire? || a.TimerDiscount? || a.TimerCall?
    requires Ids(s) && Enabled(s, a)
    ensures Ids(Step(s, a)) && |s.requests| == |Step(s, a).requests|
  {
  }

  lemma ReaderKeepsIds(s: State, a: Action)
    requires a.Respond? || a.ReaderDiscount? || a.ReaderCall?
    requires Ids(s) && Enabled(s, a)
    ensures Ids(Step(s, a)) && |s.requests| == |Step(s, a).requests|
  {
  }

  lemma StepKeepsIds(s: State, a: Action)
    requires Ids(s) && NoWrap(s) && Enabled(s, a)
    ensures Ids(Step(s, a)) || !NoWrap(Step(s, a))
    ensures |s.requests| <= |Step(s, a).requests|
  {
    hide Step, Enabled, Ids;
    if a.Draw? || a.Insert? || a.Count? || a.Arm? {
      RequesterKeepsIds(s, a);
    } else if a.Fire? || a.TimerDiscount? || a.TimerCall? {
      TimerKeepsIds(s, a);
    } else {
      ReaderKeepsIds(s, a);
    }
  }

  // ---------- where each handler is ----------

  ghost function One(b: bool): nat { if b then 1 else 0 }

  ghost function SettledW(k: nat): Settled -> nat { (x: Settled) => if x.k == k then 1 else 0 }

  /** The handler of request k is with its requester, in the map, with its timer, with the reader, or
      settled; in exactly one place. */
  ghost predicate OnePlace(s: State, k: nat) {
    k < |s.requests| ==>
      One(s.requests[k].stage.Drawn?) + One(k + 1 in s.pending)
      + One(s.requests[k].timer.Erased? || s.requests[k].timer.Discounted?)
      + One(!s.reader.Idle? && s.reader.k == k) + Sum(SettledW(k), s.settled) == 1
  }

  ghost predicate NothingEarly(s: State) {
    forall i :: 0 <= i < |s.settled| ==> s.settled[i].k < |s.requests|
  }

  lemma DrawKeepsPlace(s: State, hasHandler: bool, k: nat)
    requires Ids(s) && NoWrap(s) && NothingEarly(s) && OnePlace(s, k)
    ensures OnePlace(Step(s, Draw(hasHandler)), k) && NothingEarly(Step(s, Draw(hasHandler)))
  {
    SumZero(SettledW(|s.requests|), s.settled);
  }

  lemma RequesterKeepsPlace(s: State, a: Action, k: nat)
    requires a.Insert? || a.Count? || a.Arm?
    requires Enabled(s, a) && Ids(s) && NothingEarly(s) && OnePlace(s, k)
    ensures OnePlace(Step(s, a), k) && NothingEarly(Step(s, a))
  {
  }

  lemma TimerKeepsPlace(s: State, a: Action, k: nat)
    requires a.Fire? || a.TimerDiscount? || a.TimerCall?
    requires Enabled(s, a) && Ids(s) && NothingEarly(s) && OnePlace(s, k)
    ensures OnePlace(Step(s, a), k) && NothingEarly(Step(s, a))
  {
    if a.TimerCall? {
      SumSnoc(SettledW(k), s.settled, Step(s, a).settled[|s.settled|]);
    }
  }

  lemma RespondKeepsPlace(s: State, cid: nat, k: nat)
    requires Enabled(s, Respond(cid)) && Ids(s) && NothingEarly(s) && OnePlace(s, k)
    ensures OnePlace(Step(s, Respond(cid)), k) && NothingEarly(Step(s, Respond(cid)))
  {
    if cid in s.pending {
      SumSnoc(SettledW(k), s.settled, Settled(s.pending[cid], Answered, false));
    }
  }

  lemma ReaderKeepsPlace(s: State, a: Action, k: nat)
    requires a.ReaderDiscount? || a.ReaderCall?
    requires Enabled(s, a) && Ids(s) && NothingEarly(s) && OnePlace(s, k)
    ensures OnePlace(Step(s, a), k) && NothingEarly(Step(s, a))
  {
    if a.ReaderCall? {
      SumSnoc(SettledW(k), s.settled, Step(s, a).settled[|s.settled|]);
    }
  }

  lemma StepKeepsPlace(s: State, a: Action, k: nat)
    requires Enabled(s, a) && NoWrap(Step(s, a)) && Ids(s) && NothingEarly(s) && OnePlace(s, k)
    ensures OnePlace(Step(s, a), k) && NothingEarly(Step(s, a))
  {
    hide OnePlace, NothingEarly, Ids, Enabled;
    match a
    case Draw(hasHandler) => DrawKeepsPlace(s, hasHandler, k);
    case Respond(cid) => RespondKeepsPlace(s, cid, k);
    case ReaderDiscount => ReaderKeepsPlace(s, a, k);
    case ReaderCall => ReaderKeepsPlace(s, a, k);
    case Fire(_) => TimerKeepsPlace(s, a, k);
    case TimerDiscount(_) => TimerKeepsPlace(s, a, k);
    case TimerCall(_) => TimerKeepsPlace(s, a, k);
    case _ => RequesterKeepsPlace(s, a, k);
  }

  // ---------- the counter ----------

  ghost function IsUncounted(r: Request): nat { if r.stage.Inserted? then 1 else 0 }

  ghost function IsUndiscounted(r: Request): nat { if r.timer.Erased? then 1 else 0 }

  ghost function IsForgotten(x: Settled): nat { if x.how.Answered? && !x.called then 1 else 0 }

  /** Entries, plus those removed but not yet discounted, plus those whose null handler was answered
      and which are never discounted, less those inserted but not yet counted. */
  ghost function Owed(s: State): int {
    |s.pending| + Sum(IsUndiscounted, s.requests) + One(s.reader.Erasing?)
    + Sum(IsForgotten, s.settled) - Sum(IsUncounted, s.requests)
  }

  ghost predicate Accounted(s: State) { s.counter == Owed(s) % WORD }

  lemma RemoveKey(m: map<nat, nat>, c: nat)
    requires c in m
    ensures |m - {c}| + 1 == |m|
  {
    assert (m - {c}).Keys == m.Keys - {c};
    assert |(m - {c}).Keys| == |m - {c}| && |m.Keys| == |m|;
  }

  lemma RequestMoves(s: State, k: nat, r: Request)
    requires k < |s.requests|
    ensures Sum(IsUncounted, s.requests[k := r]) + IsUncounted(s.requests[k]) == Sum(IsUncounted, s.requests) + IsUncounted(r)
    ensures Sum(IsUndiscounted, s.requests[k := r]) + IsUndiscounted(s.requests[k])
            == Sum(IsUndiscounted, s.requests) + IsUndiscounted(r)
  {
    SumUpdate(IsUncounted, s.requests, k, r);
    SumUpdate(IsUndiscounted, s.requests, k, r);
  }

  lemma RequesterMovesOwed(s: State, a: Action)
    requires a.Draw? || a.Insert? || a.Count? || a.Arm?
    requires Enabled(s, a) && Ids(s) && (a.Insert? ==> OnePlace(s, a.k))
    ensures Owed(Step(s, a)) == Owed(s) + One(a.Count?)
  {
    var t := Step(s, a);
    if a.Draw? {
      SumSnoc(IsUncounted, s.requests, t.requests[|s.requests|]);
      SumSnoc(IsUndiscounted, s.requests, t.requests[|s.requests|]);
    } else {
      RequestMoves(s, a.k, t.requests[a.k]);
    }
  }

  lemma TimerMovesOwed(s: State, a: Action)
    requires a.Fire? || a.TimerDiscount? || a.TimerCall?
    requires Enabled(s, a) && Ids(s)
    ensures Owed(Step(s, a)) == Owed(s) - One(a.TimerDiscount?)
  {
    var t := Step(s, a);
    RequestMoves(s, a.k, t.requests[a.k]);
    if a.Fire? && s.requests[a.k].cid in s.pending {
      RemoveKey(s.pending, s.requests[a.k].cid);
    } else if a.TimerCall? {
      SumSnoc(IsForgotten, s.settled, t.settled[|s.settled|]);
    }
  }

  lemma ReaderMovesOwed(s: State, a: Action)
    requires a.Respond? || a.ReaderDiscount? || a.ReaderCall?
    requires Enabled(s, a) && Ids(s)
    ensures Owed(Step(s, a)) == Owed(s) - One(a.ReaderDiscount?)
  {
    if a.Respond? && a.cid in s.pending {
      RemoveKey(s.pending, a.cid);
      SumSnoc(IsForgotten, s.settled, Settled(s.pending[a.cid], Answered, false));
    } else if a.ReaderCall? {
      SumSnoc(IsForgotten, s.settled, Step(s, a).settled[|s.settled|]);
    }
  }

  lemma StepMovesCounter(s: State, a: Action)
    requires Enabled(s, a)
    ensures Step(s, a).counter == if a.Count? then (s.counter + 1) % WORD
                                  else if a.TimerDiscount? || a.ReaderDiscount? then Minus(s.counter)
                                  else s.counter
  {
  }

  lemma CounterMoves(owed: int, c: nat)
    requires c == owed % WORD
    ensures (c + 1) % WORD == (owed + 1) % WORD && Minus(c) == (owed - 1) % WORD
  {
  }

  lemma StepKeepsAccounted(s: State, a: Action)
    requires Enabled(s, a) && Ids(s) && Accounted(s) && (forall k :: OnePlace(s, k))
    ensures Accounted(Step(s, a))
  {
    StepMovesCounter(s, a);
    CounterMoves(Owed(s), s.counter);
    hide Step, Ids, Owed, Minus, OnePlace, Enabled;
    if a.Draw? || a.Insert? || a.Count? || a.Arm? {
      RequesterMovesOwed(s, a);
    } else if a.Fire? || a.TimerDiscount? || a.TimerCall? {
      TimerMovesOwed(s, a);
    } else {
      ReaderMovesOwed(s, a);
    }
  }

  // ---------- the timers' promises ----------

  /** A timer that has run its course leaves its request settled, or in the reader's hands. */
  ghost predicate TimersSettle(s: State) {
    forall k :: 0 <= k < |s.requests| && s.requests[k].timer.Finished? ==> k + 1 !in s.pending
  }

  ghost predicate HandlersRespected(s: State) {
    forall i :: 0 <= i < |s.settled| ==>
      && s.settled[i].k < |s.requests|
      && (s.settled[i].called <==> s.requests[s.settled[i].k].hasHandler)
  }

  lemma SettlesOne(s: State, a: Action)
    requires a.Respond? || a.TimerCall? || a.ReaderCall?
    requires Enabled(s, a) && Ids(s) && TimersSettle(s) && HandlersRespected(s)
    requires forall k :: OnePlace(s, k)
    ensures TimersSettle(Step(s, a)) && HandlersRespected(Step(s, a))
  {
    if a.TimerCall? {
      assert OnePlace(s, a.k);
    }
  }

  lemma StepKeepsSettling(s: State, a: Action)
    requires Enabled(s, a) && NoWrap(Step(s, a)) && Ids(s) && TimersSettle(s) && HandlersRespected(s)
    requires forall k :: OnePlace(s, k)
    ensures TimersSettle(Step(s, a)) && HandlersRespected(Step(s, a))
  {
    if a.Respond? || a.TimerCall? || a.ReaderCall? {
      SettlesOne(s, a);
    } else {
      var t := Step(s, a);
      assert t.settled == s.settled;
      assert forall k :: 0 <= k < |s.requests| ==> t.requests[k].hasHandler == s.requests[k].hasHandler;
      if a.Insert? {
        assert OnePlace(s, a.k);
      }
    }
  }

  // ---------- every reachable state ----------

  ghost predicate Inv(s: State) {
    && Ids(s) && Accounted(s) && TimersSettle(s) && HandlersRespected(s)
    && forall k :: OnePlace(s, k)
  }

  lemma StepKeepsInv(s: State, a: Action)
    requires Enabled(s, a) && Inv(s) && NoWrap(Step(s, a))
    ensures Inv(Step(s, a)) && NoWrap(s)
  {
    StepKeepsIds(s, a);
    StepKeepsAccounted(s, a);
    StepKeepsSettling(s, a);
    hide Step, Ids, Accounted, TimersSettle;
    forall k ensures OnePlace(Step(s, a), k) {
      StepKeepsPlace(s, a, k);
    }
  }

  lemma {:induction false} RequestsGrow(s: State, acts: seq<Action>, t: State)
    requires Runs(s, acts, t)
    ensures |s.requests| <= |t.requests|
    decreases |acts|
  {
    if acts != [] {
      RequestsGrow(Step(s, acts[0]), acts[1..], t);
    }
  }

  lemma {:induction false} RunsKeepInv(s: State, acts: seq<Action>, t: State)
    requires Inv(s) && Runs(s, acts, t) && NoWrap(t)
    ensures Inv(t)
    decreases |acts|
  {
    if acts != [] {
      RequestsGrow(Step(s, acts[0]), acts[1..], t);
      StepKeepsInv(s, acts[0]);
      RunsKeepInv(Step(s, acts[0]), acts[1..], t);
    }
  }

  lemma ReachableInv(s: State)
    requires Reachable(s)
    ensures Inv(s)
  {
    var acts :| Runs(Init(), acts, s);
    RunsKeepInv(Init(), acts, s);
  }

  // ---------- main results ----------

  ghost function CallW(k: nat): Settled -> nat { (x: Settled) => if x.k == k && x.called then 1 else 0 }

  lemma {:induction false} CallsAreSettled(log: seq<Settled>, k: nat)
    ensures Sum(CallW(k), log) <= Sum(SettledW(k), log)
    ensures (forall i :: 0 <= i < |log| && log[i].k == k ==> log[i].called) ==>
              Sum(CallW(k), log) == Sum(SettledW(k), log)
    ensures (forall i :: 0 <= i < |log| && log[i].k == k ==> !log[i].called) ==> Sum(CallW(k), log) == 0
  {
    if log != [] {
      assert forall i :: 0 <= i < |log| - 1 ==> log[1..][i] == log[i + 1];
      CallsAreSettled(log[1..], k);
    }
  }

  /** Response xor timeout: a request's handler is called at most once, by the reader or by its timer. */
  lemma ResponseXorTimeout(s: State, k: nat)
    requires Reachable(s) && k < |s.requests|
    ensures Sum(CallW(k), s.settled) <= Sum(SettledW(k), s.settled) <= 1
  {
    ReachableInv(s);
    assert OnePlace(s, k);
    CallsAreSettled(s.settled, k);
  }

  /** Once the timer's handler has finished the request is settled for good, and its handler has been
      called exactly once, unless the reader has just taken it and is about to call it; a null handler
      is never called. */
  lemma SettledOnceTimerFired(s: State, k: nat)
    requires Reachable(s) && k < |s.requests| && s.requests[k].timer.Finished?
    requires s.reader.Idle? || s.reader.k != k
    ensures Sum(SettledW(k), s.settled) == 1
    ensures Sum(CallW(k), s.settled) == One(s.requests[k].hasHandler)
  {
    ReachableInv(s);
    assert OnePlace(s, k);
    CallsAreSettled(s.settled, k);
  }

  /** Ids are unique and nonzero, so a message without a correlation id never matches. */
  lemma UniqueIds(s: State, j: nat, k: nat)
    requires Reachable(s) && j < k < |s.requests|
    ensures s.requests[j].cid != s.requests[k].cid && s.requests[j].cid != 0 && s.requests[k].cid != 0
    ensures 0 !in s.pending
  {
    ReachableInv(s);
  }

  /** An answer goes to the request that drew its id, if that is still pending, and to nobody else. */
  lemma ResponseFindsItsRequest(s: State, cid: nat)
    requires Reachable(s) && s.reader.Idle?
    ensures cid in s.pending ==>
              0 < cid <= |s.requests| && s.requests[cid - 1].cid == cid && s.pending[cid] == cid - 1
    ensures cid in s.pending && s.requests[cid - 1].hasHandler ==> Step(s, Respond(cid)).reader == Erasing(cid - 1)
    ensures cid !in s.pending ==> Step(s, Respond(cid)) == s.(unmatched := s.unmatched + [cid])
  {
    ReachableInv(s);
  }

  /** pending_requests_ at rest: the map's size, plus one for every null handler that was answered. */
  lemma CounterAtRest(s: State)
    requires Reachable(s) && s.reader.Idle?
    requires forall k :: 0 <= k < |s.requests| ==> !s.requests[k].stage.Inserted? && !s.requests[k].timer.Erased?
    ensures s.counter == (|s.pending| + Sum(IsForgotten, s.settled)) % WORD
  {
    ReachableInv(s);
    SumZero(IsUncounted, s.requests);
    SumZero(IsUndiscounted, s.requests);
  }

  /** Every request is pending or settled once at most, so there are no more of both than requests. */
  lemma {:induction false} OneEach(keys: set<nat>, log: seq<Settled>, n: nat)
    requires forall c :: c in keys ==> 0 < c <= n
    requires forall i :: 0 <= i < |log| ==> log[i].k < n
    requires forall k :: 0 <= k < n ==> One(k + 1 in keys) + Sum(SettledW(k), log) <= 1
    ensures |keys| + |log| <= n
    decreases n
  {
    if n > 0 {
      var last := n - 1;
      assert One(last + 1 in keys) + Sum(SettledW(last), log) <= 1;
      if Sum(SettledW(last), log) == 0 {
        SumZero(SettledW(last), log);
        assert forall i :: 0 <= i < |log| ==> SettledW(last)(log[i]) == 0;
        OneEach(keys - {n}, log, last);
      } else {
        SumZero(SettledW(last), log);
        var i :| 0 <= i < |log| && SettledW(last)(log[i]) != 0;
        var rest := log[..i] + log[i + 1..];
        forall k | 0 <= k < n ensures Sum(SettledW(k), rest) + SettledW(k)(log[i]) == Sum(SettledW(k), log) {
          SumRemove(SettledW(k), log, i);
        }
        assert Sum(SettledW(last), rest) == 0;
        SumZero(SettledW(last), rest);
        assert forall j :: 0 <= j < |rest| ==> SettledW(last)(rest[j]) == 0;
        OneEach(keys, rest, last);
      }
    } else {
      assert keys == {};
      assert log == [];
    }
  }

  lemma AtMostTheRequests(s: State)
    requires Reachable(s)
    ensures |s.pending| + |s.settled| <= |s.requests| < WORD
  {
    ReachableInv(s);
    forall k | 0 <= k < |s.requests|
      ensures One(k + 1 in s.pending.Keys) + Sum(SettledW(k), s.settled) <= 1
    {
      assert OnePlace(s, k) && (k + 1 in s.pending.Keys <==> k + 1 in s.pending);
    }
    forall c | c in s.pending.Keys ensures 0 < c <= |s.requests| {
      assert s.pending[c] == c - 1;
    }
    assert |s.pending.Keys| == |s.pending|;
    OneEach(s.pending.Keys, s.settled, |s.requests|);
  }

  /** It is exact precisely while no null handler has been answered. */
  lemma CounterExactIff(s: State)
    requires Reachable(s) && s.reader.Idle?
    requires forall k :: 0 <= k < |s.requests| ==> !s.requests[k].stage.Inserted? && !s.requests[k].timer.Erased?
    ensures s.counter == |s.pending| <==>
              forall i :: 0 <= i < |s.settled| ==> !(s.settled[i].how.Answered? && !s.settled[i].called)
  {
    CounterAtRest(s);
    AtMostTheRequests(s);
    SumAtMostLength(IsForgotten, s.settled);
    SumZero(IsForgotten, s.settled);
    assert forall i :: 0 <= i < |s.settled| ==>
      (IsForgotten(s.settled[i]) == 0 <==> !(s.settled[i].how.Answered? && !s.settled[i].called));
  }

  // ---------- a batch of decoded messages ----------

  /** The reader deals with one message without being interrupted. */
  ghost function Answer(s: State, cid: nat): State
    requires s.reader.Idle?
  {
    var t := Step(s, Respond(cid));
    if t.reader.Erasing? then Step(Step(t, ReaderDiscount), ReaderCall) else t
  }

  ghost function AnswerAll(s: State, cids: seq<nat>): State
    requires s.reader.Idle?
    decreases |cids|
  {
    if cids == [] then s else AnswerAll(Answer(s, cids[0]), cids[1..])
  }

  /** Handling a batch is a run of the reader. */
  lemma {:induction false} BatchIsRun(s: State, cids: seq<nat>) returns (acts: seq<Action>)
    requires s.reader.Idle?
    ensures Runs(s, acts, AnswerAll(s, cids))
    decreases |cids|
  {
    if cids == [] {
      acts := [];
    } else {
      var rest := BatchIsRun(Answer(s, cids[0]), cids[1..]);
      var t := Step(s, Respond(cids[0]));
      if t.reader.Erasing? {
        var u := Step(t, ReaderDiscount);
        var two := [ReaderCall] + rest;
        assert two[1..] == rest;
        assert Runs(u, two, AnswerAll(s, cids));
        var three := [ReaderDiscount] + two;
        assert three[1..] == two;
        assert Runs(t, three, AnswerAll(s, cids));
        acts := [Respond(cids[0])] + three;
        assert acts[1..] == three;
      } else {
        acts := [Respond(cids[0])] + rest;
        assert acts[1..] == rest;
      }
    }
  }

  /** Within one batch a repeated answer is not matched again. */
  lemma DuplicateAnswerUnmatched(s: State, cid: nat)
    requires Reachable(s) && s.reader.Idle?
    ensures Answer(Answer(s, cid), cid).unmatched == Answer(s, cid).unmatched + [cid]
    ensures Answer(Answer(s, cid), cid).settled == Answer(s, cid).settled
  {
    ReachableInv(s);
  }
}
