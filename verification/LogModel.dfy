/** The log adapter as a transition system: any number of producers, one worker that swaps out whole
    batches, and a destructor that stops and signals under the lock. */
module LogModel {
  import opened Sums

  type Message = nat

  datatype ProducerPc =
    | Idle
    | Sizing(msg: Message)                        // before the first look at the queue size
    | Passed(msg: Message)                        // below the limit then, perhaps backing off
    | Appended(len: nat)                          // holds the lock, before loading the mark
    | Marking(len: nat, prev: nat)                // holds the lock, in the compare-and-swap loop
    | Owing                                       // lock released, signal not yet sent

  datatype WorkerPc =
    | Top | Asleep | Woken
    | Dispatching(batch: seq<Message>)
    | Leaving                                     // left the loop, before the final swap
    | Draining(batch: seq<Message>)
    | Stopping | Stopped

  datatype DtorPc = Alive | Waiting | Joined | Detached

  datatype History = History(
    begun: seq<Message>, appended: seq<Message>, dispatched: seq<Message>, dropLog: seq<Message>,
    reported: nat, peak: nat, stopMark: Option<nat>, swapMark: Option<nat>)

  datatype State = State(
    limit: nat,
    running: bool, stopped: bool, owner: Option<nat>, queue: seq<Message>, dropped: nat, mark: nat,
    producers: seq<ProducerPc>, worker: WorkerPc, dtor: DtorPc, hist: History)

  datatype ProducerAct =
    | Begin(msg: Message) | ReadSize | Recheck | LoadMark | SwapMark | RetryMark | Unlock | Signal

  datatype WorkerAct =
    | Test | SpuriousWake | Rejoin | DispatchOne | EndBatch | FinalSwap | DrainOne | EndDrain | Stop

  datatype OtherAct = StoreStop | SeeStopped | TimeOut | TakeDropped

  datatype Action = Produce(p: nat, pa: ProducerAct) | Work(wa: WorkerAct) | Other(oa: OtherAct)

  ghost function Init(limit: nat, producers: nat): State {
    State(limit, true, false, None, [], 0, 0, seq(producers, i => Idle), Top, Alive,
          History([], [], [], [], 0, 0, None, None))
  }

  ghost predicate ProducerEnabled(s: State, p: nat, act: ProducerAct) {
    && p < |s.producers|
    && var pc := s.producers[p];
      match act
      case Begin(_) => pc.Idle?
      case ReadSize => pc.Sizing? && s.owner.None?
      case Recheck => pc.Passed? && s.owner.None?
      case LoadMark => pc.Appended?
      case SwapMark => pc.Marking? && pc.len > pc.prev == s.mark
      case RetryMark => pc.Marking? && pc.len > pc.prev
      case Unlock => pc.Marking? && pc.len <= pc.prev
      case Signal => pc.Owing?
  }

  ghost predicate WorkerEnabled(s: State, act: WorkerAct) {
    match act
    case Test => s.worker.Top? && s.owner.None?
    case SpuriousWake => s.worker.Asleep?
    case Rejoin => s.worker.Woken? && s.owner.None?
    case DispatchOne => s.worker.Dispatching? && s.worker.batch != []
    case EndBatch => s.worker == Dispatching([])
    case FinalSwap => s.worker.Leaving? && s.owner.None?
    case DrainOne => s.worker.Draining? && s.worker.batch != []
    case EndDrain => s.worker == Draining([])
    case Stop => s.worker.Stopping?
  }

  ghost predicate OtherEnabled(s: State, act: OtherAct) {
    match act
    case StoreStop => s.dtor.Alive? && s.owner.None?
    case SeeStopped => s.dtor.Waiting? && s.stopped
    case TimeOut => s.dtor.Waiting?
    case TakeDropped => true
  }

  ghost predicate Enabled(s: State, a: Action) {
    match a
    case Produce(p, act) => ProducerEnabled(s, p, act)
    case Work(act) => WorkerEnabled(s, act)
    case Other(act) => OtherEnabled(s, act)
  }

  function Woke(pc: WorkerPc): WorkerPc { if pc.Asleep? then Woken else pc }

  function Max(a: nat, b: nat): nat { if a < b then b else a }

  ghost function WithProducer(s: State, p: nat, pc: ProducerPc): State
    requires p < |s.producers|
  {
    s.(producers := s.producers[p := pc])
  }

  ghost function Dropped(s: State, p: nat, msg: Message): State
    requires p < |s.producers|
  {
    WithProducer(s, p, Idle).(dropped := s.dropped + 1, hist := s.hist.(dropLog := s.hist.dropLog + [msg]))
  }

  ghost function AppendedBy(s: State, p: nat, msg: Message): State
    requires p < |s.producers|
  {
    WithProducer(s, p, Appended(|s.queue| + 1))
      .(owner := Some(p), queue := s.queue + [msg],
        hist := s.hist.(appended := s.hist.appended + [msg], peak := Max(s.hist.peak, |s.queue| + 1)))
  }

  ghost function ProducerStep(s: State, p: nat, act: ProducerAct): State
    requires ProducerEnabled(s, p, act)
  {
    var pc := s.producers[p];
    match act
    case Begin(msg) => WithProducer(s, p, Sizing(msg)).(hist := s.hist.(begun := s.hist.begun + [msg]))
    case ReadSize => if |s.queue| >= s.limit then Dropped(s, p, pc.msg) else WithProducer(s, p, Passed(pc.msg))
    case Recheck => if |s.queue| >= s.limit then Dropped(s, p, pc.msg) else AppendedBy(s, p, pc.msg)
    case LoadMark => WithProducer(s, p, Marking(pc.len, s.mark))
    case SwapMark => WithProducer(s, p, pc.(prev := pc.len)).(mark := pc.len)
    case RetryMark => WithProducer(s, p, pc.(prev := s.mark))
    case Unlock => WithProducer(s, p, Owing).(owner := None)
    case Signal => WithProducer(s, p, Idle).(worker := Woke(s.worker))
  }

  ghost function DispatchedOne(s: State): State
    requires (s.worker.Dispatching? || s.worker.Draining?) && s.worker.batch != []
  {
    s.(worker := s.worker.(batch := s.worker.batch[1..]),
       hist := s.hist.(dispatched := s.hist.dispatched + [s.worker.batch[0]]))
  }

  ghost function DropsTaken(s: State): State {
    s.(dropped := 0, hist := s.hist.(reported := s.hist.reported + s.dropped))
  }

  ghost function WorkerStep(s: State, act: WorkerAct): State
    requires WorkerEnabled(s, act)
  {
    match act
    case Test =>
      if s.queue != [] then s.(worker := Dispatching(s.queue), queue := [])
      else s.(worker := if s.running then Asleep else Leaving)
    case SpuriousWake => s.(worker := Woken)
    case Rejoin => s.(worker := Top)
    case DispatchOne => DispatchedOne(s)
    case EndBatch => DropsTaken(s).(worker := Top)
    case FinalSwap =>
      s.(worker := Draining(s.queue), queue := [], hist := s.hist.(swapMark := Some(|s.hist.appended|)))
    case DrainOne => DispatchedOne(s)
    case EndDrain => DropsTaken(s).(worker := Stopping)
    case Stop => s.(worker := Stopped, stopped := true)
  }

  ghost function OtherStep(s: State, act: OtherAct): State
    requires OtherEnabled(s, act)
  {
    match act
    case StoreStop =>
      s.(running := false, worker := Woke(s.worker), dtor := Waiting,
         hist := s.hist.(stopMark := Some(|s.hist.appended|)))
    case SeeStopped => s.(dtor := Joined)
    case TimeOut => s.(dtor := if s.stopped then Joined else Detached)
    case TakeDropped => DropsTaken(s)
  }

  ghost function Step(s: State, a: Action): State
    requires Enabled(s, a)
  {
    match a
    case Produce(p, act) => ProducerStep(s, p, act)
    case Work(act) => WorkerStep(s, act)
    case Other(act) => OtherStep(s, act)
  }

  ghost predicate Runs(s: State, acts: seq<Action>, t: State)
    decreases |acts|
  {
    if acts == [] then s == t
    else Enabled(s, acts[0]) && Runs(Step(s, acts[0]), acts[1..], t)
  }

  ghost predicate Reachable(s: State) {
    exists acts :: Runs(Init(s.limit, |s.producers|), acts, s)
  }

  // ---------- the invariants ----------

  ghost predicate HoldsLock(pc: ProducerPc) { pc.Appended? || pc.Marking? }

  ghost predicate Lock(s: State) {
    && (forall p :: 0 <= p < |s.producers| ==> (HoldsLock(s.producers[p]) <==> s.owner == Some(p)))
    && (s.owner.Some? ==> s.owner.value < |s.producers|)
  }

  /** What the worker has taken from the queue but not yet dispatched. */
  ghost function Rest(pc: WorkerPc): seq<Message> {
    if pc.Dispatching? || pc.Draining? then pc.batch else []
  }

  ghost predicate AfterSwap(pc: WorkerPc) { pc.Draining? || pc.Stopping? || pc.Stopped? }

  /** Dispatched, in hand, queued: together the messages in append order.  The final swap is later
      than the stop. */
  ghost predicate Order(s: State) {
    && s.hist.dispatched + Rest(s.worker) + s.queue == s.hist.appended
    && (s.running <==> s.hist.stopMark.None?)
    && (s.hist.stopMark.Some? ==> s.hist.stopMark.value <= |s.hist.appended|)
    && (AfterSwap(s.worker) || s.worker.Leaving? ==> !s.running)
    && (AfterSwap(s.worker) ==>
          && s.hist.swapMark.Some? && s.hist.stopMark.value <= s.hist.swapMark.value
          && |s.hist.dispatched| + |Rest(s.worker)| == s.hist.swapMark.value)
    && (s.stopped <==> s.worker.Stopped?)
    && (s.dtor.Alive? <==> s.running)
    && (s.dtor.Joined? ==> s.stopped)
  }

  ghost predicate Announcing(pc: ProducerPc) { HoldsLock(pc) || pc.Owing? }

  ghost predicate Wakeful(s: State) {
    s.worker.Asleep? ==>
      s.running && (s.queue == [] || exists p :: 0 <= p < |s.producers| && Announcing(s.producers[p]))
  }

  /** The size limit holds at every moment, and the mark is exact while nobody holds the lock. */
  ghost predicate Sizes(s: State) {
    && |s.queue| <= s.limit
    && |s.queue| <= s.hist.peak && s.mark <= s.hist.peak
    && (s.owner.None? ==> s.mark == s.hist.peak)
    && (forall p {:trigger s.producers[p]} :: 0 <= p < |s.producers| && HoldsLock(s.producers[p]) ==>
          && s.producers[p].len <= s.hist.peak <= Max(s.mark, s.producers[p].len)
          && (s.producers[p].Marking? ==> s.producers[p].prev <= s.mark))
  }

  ghost predicate Drops(s: State) { s.dropped + s.hist.reported == |s.hist.dropLog| }

  ghost predicate Inv(s: State) { Lock(s) && Order(s) && Wakeful(s) && Sizes(s) && Drops(s) }

  lemma ProducerKeepsWakeful(s: State, p: nat, act: ProducerAct)
    requires Wakeful(s) && ProducerEnabled(s, p, act)
    ensures Wakeful(ProducerStep(s, p, act))
  {
    var t := ProducerStep(s, p, act);
    if s.worker.Asleep? && s.queue != [] && !act.Signal? {
      var p' :| 0 <= p' < |s.producers| && Announcing(s.producers[p']);
      assert Announcing(t.producers[p']);
    }
    if act.Recheck? {
      assert Announcing(t.producers[p]) || t.queue == s.queue;
    }
  }

  lemma ProducerKeepsLock(s: State, p: nat, act: ProducerAct)
    requires Lock(s) && ProducerEnabled(s, p, act)
    ensures Lock(ProducerStep(s, p, act))
  {
  }

  lemma ProducerKeepsOrder(s: State, p: nat, act: ProducerAct)
    requires Order(s) && Drops(s) && ProducerEnabled(s, p, act)
    ensures Order(ProducerStep(s, p, act)) && Drops(ProducerStep(s, p, act))
  {
  }

  lemma ProducerKeepsInv(s: State, p: nat, act: ProducerAct)
    requires Inv(s) && ProducerEnabled(s, p, act)
    ensures Inv(ProducerStep(s, p, act))
  {
    ProducerKeepsLock(s, p, act);
    ProducerKeepsOrder(s, p, act);
    ProducerKeepsWakeful(s, p, act);
    hide Wakeful, Order, Drops;
  }

  /** Taking the whole queue as a batch. */
  lemma SwapKeepsOrder(s: State, act: WorkerAct)
    requires Order(s) && WorkerEnabled(s, act) && (act.FinalSwap? || (act.Test? && s.queue != []))
    ensures Order(WorkerStep(s, act))
  {
    assert Rest(s.worker) == [] && s.hist.dispatched + [] == s.hist.dispatched;
    assert s.hist.dispatched + s.queue + [] == s.hist.dispatched + s.queue;
  }

  lemma DispatchKeepsOrder(s: State, act: WorkerAct)
    requires Order(s) && WorkerEnabled(s, act) && (act.DispatchOne? || act.DrainOne?)
    ensures Order(WorkerStep(s, act))
  {
    var t := WorkerStep(s, act);
    var batch := s.worker.batch;
    assert batch == [batch[0]] + batch[1..];
    assert t.hist.dispatched + batch[1..] == s.hist.dispatched + batch;
  }

  lemma WorkerKeepsOrder(s: State, act: WorkerAct)
    requires Order(s) && WorkerEnabled(s, act)
    ensures Order(WorkerStep(s, act))
  {
    if act.FinalSwap? || (act.Test? && s.queue != []) {
      SwapKeepsOrder(s, act);
    } else if act.DispatchOne? || act.DrainOne? {
      DispatchKeepsOrder(s, act);
    } else {
      assert Rest(WorkerStep(s, act).worker) == Rest(s.worker) == [];
    }
  }

  lemma WorkerKeepsRest(s: State, act: WorkerAct)
    requires Inv(s) && WorkerEnabled(s, act)
    ensures var t := WorkerStep(s, act); Lock(t) && Wakeful(t) && Sizes(t) && Drops(t)
  {
    hide Order;
  }

  lemma WorkerKeepsInv(s: State, act: WorkerAct)
    requires Inv(s) && WorkerEnabled(s, act)
    ensures Inv(WorkerStep(s, act))
  {
    WorkerKeepsOrder(s, act);
    WorkerKeepsRest(s, act);
  }

  lemma OtherKeepsInv(s: State, act: OtherAct)
    requires Inv(s) && OtherEnabled(s, act)
    ensures Inv(OtherStep(s, act))
  {
  }

  lemma StepKeepsInv(s: State, a: Action)
    requires Inv(s) && Enabled(s, a)
    ensures Inv(Step(s, a))
  {
    hide ProducerStep, WorkerStep, OtherStep, Inv;
    match a
    case Produce(p, act) => ProducerKeepsInv(s, p, act);
    case Work(act) => WorkerKeepsInv(s, act);
    case Other(act) => OtherKeepsInv(s, act);
  }

  lemma {:induction false} RunsKeepInv(s: State, acts: seq<Action>, t: State)
    requires Inv(s) && Runs(s, acts, t)
    ensures Inv(t)
    decreases |acts|
  {
    if acts != [] {
      StepKeepsInv(s, acts[0]);
      RunsKeepInv(Step(s, acts[0]), acts[1..], t);
    }
  }

  lemma InitInv(limit: nat, producers: nat)
    ensures Inv(Init(limit, producers))
  {
  }

  lemma ReachableInv(s: State)
    requires Reachable(s)
    ensures Inv(s)
  {
    var i := Init(s.limit, |s.producers|);
    InitInv(s.limit, |s.producers|);
    var acts :| Runs(i, acts, s);
    RunsKeepInv(i, acts, s);
  }

  // ---------- main results ----------

  /** Dispatched, then the rest of the current batch, then the queue: the messages in the order in
      which they were appended, in every reachable state. */
  lemma LogOrder(s: State)
    requires Reachable(s)
    ensures s.hist.dispatched + Rest(s.worker) + s.queue == s.hist.appended
    ensures s.hist.dispatched <= s.hist.appended
  {
    ReachableInv(s);
    assert s.hist.dispatched <= s.hist.dispatched + (Rest(s.worker) + s.queue);
    assert s.hist.dispatched + (Rest(s.worker) + s.queue) == s.hist.appended;
  }

  /** The drain guarantee: once the worker has stopped, everything appended before the destructor
      cleared running_ has been dispatched, in order, and so has all that came before the final swap. */
  lemma LogDrain(s: State)
    requires Reachable(s) && s.stopped
    ensures s.hist.stopMark.Some? && s.hist.swapMark.Some?
    ensures s.hist.stopMark.value <= s.hist.swapMark.value <= |s.hist.appended|
    ensures s.hist.dispatched == s.hist.appended[..s.hist.swapMark.value]
    ensures s.queue == s.hist.appended[s.hist.swapMark.value..]
  {
    ReachableInv(s);
    assert s.hist.dispatched + s.queue == s.hist.appended;
  }

  /** No signal is lost, neither a producer's nor the destructor's. */
  lemma LogNoLostWakeup(s: State)
    requires Reachable(s) && s.worker.Asleep?
    ensures s.running
    ensures s.queue != [] ==> exists p :: 0 <= p < |s.producers| && Announcing(s.producers[p])
  {
    ReachableInv(s);
  }

  /** The limit is strict for any number of producers, and drops are all accounted for. */
  lemma LogBound(s: State)
    requires Reachable(s)
    ensures |s.queue| <= s.limit
    ensures s.dropped + s.hist.reported == |s.hist.dropLog|
  {
    ReachableInv(s);
  }

  // ---------- each message is begun once, and dropped, in hand, or appended ----------

  ghost function Equals(m: Message): Message -> nat { (x: Message) => if x == m then 1 else 0 }

  ghost function InHand(m: Message): ProducerPc -> nat {
    (pc: ProducerPc) => if (pc.Sizing? || pc.Passed?) && pc.msg == m then 1 else 0
  }

  ghost predicate Conserved(s: State, m: Message) {
    Sum(Equals(m), s.hist.begun)
    == Sum(Equals(m), s.hist.dropLog) + Sum(InHand(m), s.producers) + Sum(Equals(m), s.hist.appended)
  }

  /** The records a producer's action changes: at most one, and by its own message. */
  lemma ProducerRecords(s: State, p: nat, act: ProducerAct)
    requires ProducerEnabled(s, p, act)
    ensures var t := ProducerStep(s, p, act);
      var pc := s.producers[p];
      var drops := (act.ReadSize? || act.Recheck?) && |s.queue| >= s.limit;
      && t.producers == s.producers[p := t.producers[p]]
      && t.hist.begun == (if act.Begin? then s.hist.begun + [act.msg] else s.hist.begun)
      && t.hist.dropLog == (if drops then s.hist.dropLog + [pc.msg] else s.hist.dropLog)
      && t.hist.appended == (if act.Recheck? && !drops then s.hist.appended + [pc.msg] else s.hist.appended)
      && (if act.Begin? then t.producers[p] == Sizing(act.msg)
          else if act.ReadSize? then t.producers[p] == (if drops then Idle else Passed(pc.msg))
          else !t.producers[p].Sizing? && !t.producers[p].Passed? && (act.Recheck? || HoldsLock(pc) || pc.Owing?))
  {
  }

  lemma ProducerConserves(s: State, p: nat, act: ProducerAct, m: Message)
    requires ProducerEnabled(s, p, act) && Conserved(s, m)
    ensures Conserved(ProducerStep(s, p, act), m)
  {
    hide ProducerStep;
    ProducerRecords(s, p, act);
    var t := ProducerStep(s, p, act);
    SumUpdate(InHand(m), s.producers, p, t.producers[p]);
    if act.Begin? {
      SumSnoc(Equals(m), s.hist.begun, act.msg);
    } else if act.ReadSize? || act.Recheck? {
      SumSnoc(Equals(m), s.hist.dropLog, s.producers[p].msg);
      SumSnoc(Equals(m), s.hist.appended, s.producers[p].msg);
    }
  }

  lemma WorkerConserves(s: State, act: WorkerAct, m: Message)
    requires WorkerEnabled(s, act) && Conserved(s, m)
    ensures Conserved(WorkerStep(s, act), m)
  {
    var t := WorkerStep(s, act);
    assert t.hist.begun == s.hist.begun && t.hist.dropLog == s.hist.dropLog;
    assert t.hist.appended == s.hist.appended && t.producers == s.producers;
  }

  lemma StepConserves(s: State, a: Action, m: Message)
    requires Enabled(s, a) && Conserved(s, m)
    ensures Conserved(Step(s, a), m)
  {
    hide ProducerStep, WorkerStep, Conserved;
    match a
    case Produce(p, act) => ProducerConserves(s, p, act, m);
    case Work(act) => WorkerConserves(s, act, m);
    case Other(act) => OtherConserves(s, act, m);
  }

  lemma OtherConserves(s: State, act: OtherAct, m: Message)
    requires OtherEnabled(s, act) && Conserved(s, m)
    ensures Conserved(OtherStep(s, act), m)
  {
  }

  lemma {:induction false} RunsConserve(s: State, acts: seq<Action>, t: State, m: Message)
    requires Runs(s, acts, t) && Conserved(s, m)
    ensures Conserved(t, m)
    decreases |acts|
  {
    if acts != [] {
      StepConserves(s, acts[0], m);
      RunsConserve(Step(s, acts[0]), acts[1..], t, m);
    }
  }

  /** No message is lost or duplicated: as often as it was logged it was dropped by a size check, is
      still with its producer, has been dispatched, or waits for the worker. */
  lemma LogConservation(s: State, m: Message)
    requires Reachable(s)
    ensures Sum(Equals(m), s.hist.begun)
            == Sum(Equals(m), s.hist.dropLog) + Sum(InHand(m), s.producers)
               + Sum(Equals(m), s.hist.dispatched) + Sum(Equals(m), Rest(s.worker)) + Sum(Equals(m), s.queue)
  {
    var i := Init(s.limit, |s.producers|);
    SumConstant(InHand(m), i.producers, Idle);
    var acts :| Runs(i, acts, s);
    RunsConserve(i, acts, s, m);
    ReachableInv(s);
    SumAppend(Equals(m), s.hist.dispatched + Rest(s.worker), s.queue);
    SumAppend(Equals(m), s.hist.dispatched, Rest(s.worker));
  }

  // ---------- the high-water mark ----------

  ghost function LongestSeen(s: State, acts: seq<Action>, t: State): nat
    requires Runs(s, acts, t)
    decreases |acts|
  {
    if acts == [] then |s.queue| else Max(|s.queue|, LongestSeen(Step(s, acts[0]), acts[1..], t))
  }

  lemma {:induction false} PeakIsLongestSeen(s: State, acts: seq<Action>, t: State)
    requires Inv(s) && Runs(s, acts, t)
    ensures Max(s.hist.peak, LongestSeen(s, acts, t)) == t.hist.peak
    decreases |acts|
  {
    if acts != [] {
      StepKeepsInv(s, acts[0]);
      StepMovesPeak(s, acts[0]);
      PeakIsLongestSeen(Step(s, acts[0]), acts[1..], t);
    }
  }

  lemma ProducerMovesPeak(s: State, p: nat, act: ProducerAct)
    requires ProducerEnabled(s, p, act) && |s.queue| <= s.hist.peak
    ensures var t := ProducerStep(s, p, act); t.hist.peak == Max(s.hist.peak, |t.queue|)
  {
  }

  lemma WorkerKeepsPeak(s: State, act: WorkerAct)
    requires WorkerEnabled(s, act)
    ensures var t := WorkerStep(s, act); t.hist.peak == s.hist.peak && |t.queue| <= |s.queue|
  {
  }

  lemma StepMovesPeak(s: State, a: Action)
    requires Inv(s) && Enabled(s, a)
    ensures Step(s, a).hist.peak == Max(s.hist.peak, |Step(s, a).queue|)
  {
    hide ProducerStep, WorkerStep;
    match a
    case Produce(p, act) => ProducerMovesPeak(s, p, act);
    case Work(act) => WorkerKeepsPeak(s, act);
    case Other(_) =>
  }

  /** The mark never exceeds the longest queue of the run, and equals it while the lock is free. */
  lemma LogMarkIsMaximum(limit: nat, producers: nat, acts: seq<Action>, t: State)
    requires Runs(Init(limit, producers), acts, t)
    ensures t.mark <= LongestSeen(Init(limit, producers), acts, t)
    ensures t.owner.None? ==> t.mark == LongestSeen(Init(limit, producers), acts, t)
  {
    InitInv(limit, producers);
    RunsKeepInv(Init(limit, producers), acts, t);
    PeakIsLongestSeen(Init(limit, producers), acts, t);
  }

  // ---------- shutdown completes ----------

  /** The number of steps the worker still needs once the adapter has been stopped, at most. */
  ghost function Distance(s: State): nat {
    match s.worker
    case Stopped => 0
    case Stopping => 1
    case Draining(batch) => 2 + |batch|
    case Leaving => 3 + |s.queue|
    case Top => 4 + 3 * |s.queue|
    case Woken => 5 + 3 * |s.queue|
    case Dispatching(batch) => 5 + |batch| + 3 * |s.queue|
    case Asleep => 6 + 3 * |s.queue|
  }

  /** After the stop, with the producers gone, the worker can always move and each of its moves brings
      it nearer to its end; so the drain always completes. */
  lemma LogShutdownProgress(s: State)
    requires Reachable(s) && !s.running && forall p :: 0 <= p < |s.producers| ==> s.producers[p].Idle?
    ensures !s.worker.Stopped? ==> exists act :: WorkerEnabled(s, act)
    ensures forall act :: WorkerEnabled(s, act) ==> Distance(WorkerStep(s, act)) < Distance(s)
  {
    ReachableInv(s);
    assert s.owner.Some? ==> HoldsLock(s.producers[s.owner.value]);
    match s.worker {
      case Top => assert WorkerEnabled(s, Test);
      case Woken => assert WorkerEnabled(s, Rejoin);
      case Dispatching(batch) =>
        assert WorkerEnabled(s, if batch == [] then EndBatch else DispatchOne);
      case Leaving => assert WorkerEnabled(s, FinalSwap);
      case Draining(batch) =>
        assert WorkerEnabled(s, if batch == [] then EndDrain else DrainOne);
      case Stopping => assert WorkerEnabled(s, Stop);
      case _ =>
    }
  }
}
