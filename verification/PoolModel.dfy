/** The task processor as a transition system.  Every thread carries a program counter and every
    action is one atomic access to shared state, or one critical section that nobody can observe
    half-way.  Mutexes, the condition variable and the atomics are explicit. */
module PoolModel {
  import opened Sums

  /** The atomics are of type size_t and wrap here. */
  const WORD: nat := 0x1_0000_0000_0000_0000

  datatype Mode = Fifo | RoundRobin | WorkStealing

  datatype Config = Config(threads: nat, producers: nat, mode: Mode, breaker: bool, maxQueue: nat)

  /** A plain task, or one that carries a promise and perhaps a cancellation token. */
  datatype Kind = Plain | WithResult(token: Option<nat>)

  /** A submission; ids are handed out in the order in which submissions begin. */
  datatype Task = Task(id: nat, kind: Kind)

  /** A queued task with the position of its push in the global push order. */
  datatype Item = Item(task: Task, stamp: nat)

  datatype SubmitPc =
    | Idle
    | Entered(task: Task)                         // before loading the task counter
    | Admitted(task: Task)                        // passed the circuit breaker, perhaps backing off
    | Drawn(task: Task, q: nat)                   // queue index chosen
    | Pushed(q: nat, len: nat)                    // holds queue mutex q, before loading the mark
    | Swapping(q: nat, len: nat, prev: nat)       // holds queue mutex q, in the compare-and-swap loop
    | Uncounted                                   // queue mutex released, counter not yet incremented
    | Counted                                     // counter incremented, signal still owed
    | Signalling                                  // holds the condition mutex

  datatype WorkPc =
    | Top | Wanting
    | TestRunning | TestCount | BeforeWait        // these three hold the condition mutex
    | Asleep | Woken
    | Owning | Stealing
    | Got(task: Task)                             // popped, counter not yet decremented
    | Discounted(task: Task) | Calling(task: Task) | Wrapping(task: Task) | Executing(task: Task)
    | Dropping
    | Leaving | Gone

  datatype DtorPc = Alive | Stopping | Signalled | Joined | Destroyed

  datatype Thread = Producer(p: nat) | Worker(w: nat)

  datatype Promise = NoFuture | Unset | Value | Cancelled | Failed

  datatype Pop = Pop(worker: nat, q: nat, item: Item, back: bool)

  /** What has happened so far; no step ever reads it. */
  datatype History = History(
    pushLog: seq<Task>, popLog: seq<Pop>, callLog: seq<Task>,
    dropLog: seq<Task>, refuseLog: seq<Task>, doneLog: seq<Task>,
    ran: seq<nat>, fired: seq<nat>, draws: seq<nat>, peak: nat, latePops: seq<nat>, reported: nat)

  /** The fields of the processor object, and the promises and tokens its users hold. */
  datatype Memory = Memory(
    running: bool, stopped: bool, active: nat,
    queues: seq<seq<Item>>, qOwner: seq<Option<nat>>, mutex: Option<Thread>,
    counter: nat, dropped: nat, mark: nat, processed: nat, stolen: nat, rr: nat,
    promises: seq<Promise>, cancelled: set<nat>)

  datatype State = State(
    cfg: Config, mem: Memory,
    producers: seq<SubmitPc>, workers: seq<WorkPc>, dtor: DtorPc,
    hist: History)

  datatype SubmitAct =
    | Begin(kind: Kind) | Check | Draw | Push
    | LoadMark | SwapMark | RetryMark | Unlock
    | Count | LockToSignal | SignalAll

  datatype WorkAct =
    | Loop | LockToTest | SeeRunning | SeeCount | Wait | SpuriousWake
    | PopOwn | Steal(victim: nat) | Discount | Tally | Call
    | Wrap | Finish(returned: bool) | ReportDrops | Leave

  /** The destructor's steps, the users of cancellation tokens, and the drop counter's reader. */
  datatype OtherAct =
    | StopStore | StopSignal | StopJoin | StopFinal
    | SetToken(token: nat, on: bool) | TakeDropped

  datatype Action = Submit(p: nat, sa: SubmitAct) | Work(w: nat, wa: WorkAct) | Other(oa: OtherAct)

  // ---------- weights over threads and queues ----------

  ghost function Length(q: seq<Item>): nat { |q| }

  ghost function IsUncounted(pc: SubmitPc): nat {
    if pc.Pushed? || pc.Swapping? || pc.Uncounted? then 1 else 0
  }

  ghost function OwesSignal(pc: SubmitPc): nat { if pc.Counted? || pc.Signalling? then 1 else 0 }

  ghost function IsAdmitted(pc: SubmitPc): nat { if pc.Admitted? || pc.Drawn? then 1 else 0 }

  ghost function IsUndiscounted(pc: WorkPc): nat { if pc.Got? then 1 else 0 }

  ghost function StillIn(pc: WorkPc): nat { if pc.Gone? then 0 else 1 }

  ghost function Queued(s: State): nat { Sum(Length, s.mem.queues) }

  ghost function Uncounteds(s: State): nat { Sum(IsUncounted, s.producers) }

  ghost function SignalsOwed(s: State): nat { Sum(OwesSignal, s.producers) }

  ghost function Admitteds(s: State): nat { Sum(IsAdmitted, s.producers) }

  ghost function Undiscounted(s: State): nat { Sum(IsUndiscounted, s.workers) }

  ghost predicate AllIdle(s: State) { forall p :: 0 <= p < |s.producers| ==> s.producers[p].Idle? }

  // ---------- the initial state and the steps ----------

  function Fill<T>(n: nat, x: T): (xs: seq<T>)
    ensures |xs| == n && forall i :: 0 <= i < n ==> xs[i] == x
  {
    seq(n, i => x)
  }

  ghost function Init(cfg: Config): State {
    State(cfg,
          Memory(true, false, cfg.threads,
                 Fill(cfg.threads, []), Fill(cfg.threads, None), None,
                 0, 0, 0, 0, 0, 0,
                 [], {}),
          Fill(cfg.producers, Idle), Fill(cfg.threads, Top), Alive,
          History([], [], [], [], [], [], [], [], [], 0, Fill(cfg.threads, 0), 0))
  }

  /** The shape of a state: one queue, one mutex and one worker per thread, and indices in range. */
  ghost predicate Shape(s: State) {
    && 0 < s.cfg.threads
    && |s.mem.queues| == |s.mem.qOwner| == |s.workers| == |s.hist.latePops| == s.cfg.threads
    && |s.producers| == s.cfg.producers
    && (forall p {:trigger s.producers[p]} :: 0 <= p < |s.producers| ==> QueueInRange(s, s.producers[p]))
  }

  ghost predicate QueueInRange(s: State, pc: SubmitPc) {
    pc.Drawn? || pc.Pushed? || pc.Swapping? ==> pc.q < |s.mem.queues|
  }

  /** A live task occupies memory, so fewer of them exist than a size_t can count. */
  ghost predicate RoomForOneMore(s: State) { Queued(s) + Undiscounted(s) + 1 < WORD }

  ghost predicate SubmitEnabled(s: State, p: nat, act: SubmitAct)
    requires Shape(s)
  {
    && p < |s.producers|
    && var pc := s.producers[p];
      match act
      case Begin(_) => pc.Idle?
      case Check => pc.Entered?
      case Draw => pc.Admitted?
      case Push => pc.Drawn? && s.mem.qOwner[pc.q].None? && RoomForOneMore(s)
      case LoadMark => pc.Pushed?
      case SwapMark => pc.Swapping? && pc.len > pc.prev == s.mem.mark
      case RetryMark => pc.Swapping? && pc.len > pc.prev
      case Unlock => pc.Swapping? && pc.len <= pc.prev
      case Count => pc.Uncounted?
      case LockToSignal => pc.Counted? && s.mem.mutex.None?
      case SignalAll => pc.Signalling?
  }

  ghost predicate WorkEnabled(s: State, w: nat, act: WorkAct)
    requires Shape(s)
  {
    && w < |s.workers|
    && var pc := s.workers[w];
      match act
      case Loop => pc.Top?
      case LockToTest => (pc.Wanting? || pc.Woken?) && s.mem.mutex.None?
      case SeeRunning => pc.TestRunning?
      case SeeCount => pc.TestCount?
      case Wait => pc.BeforeWait?
      case SpuriousWake => pc.Asleep?
      case PopOwn => pc.Owning? && s.mem.qOwner[w].None?
      case Steal(v) => pc.Stealing? && v < |s.mem.queues| && s.mem.qOwner[v].None?
      case Discount => pc.Got?
      case Tally => pc.Discounted?
      case Call => pc.Calling?
      case Wrap => pc.Wrapping?
      case Finish(_) => pc.Executing?
      case ReportDrops => pc.Dropping?
      case Leave => pc.Leaving?
  }

  ghost predicate OtherEnabled(s: State, act: OtherAct) {
    match act
    case StopStore => s.dtor.Alive?
    case StopSignal => s.dtor.Stopping?
    case StopJoin =>
      s.dtor.Signalled? && s.mem.active == 0 && forall w :: 0 <= w < |s.workers| ==> s.workers[w].Gone?
    case StopFinal => s.dtor.Joined?
    case SetToken(_, _) => true
    case TakeDropped => true
  }

  ghost predicate Enabled(s: State, a: Action)
    requires Shape(s)
  {
    match a
    case Submit(p, act) => SubmitEnabled(s, p, act)
    case Work(w, act) => WorkEnabled(s, w, act)
    case Other(act) => OtherEnabled(s, act)
  }

  /** Waking everybody who sleeps on the condition variable. */
  function WakeAll(ws: seq<WorkPc>): (r: seq<WorkPc>)
    ensures |r| == |ws|
    ensures forall i :: 0 <= i < |ws| ==> r[i] == if ws[i].Asleep? then Woken else ws[i]
  {
    seq(|ws|, i requires 0 <= i < |ws| => if ws[i].Asleep? then Woken else ws[i])
  }

  ghost predicate IsFired(s: State, kind: Kind) {
    kind.WithResult? && kind.token.Some? && kind.token.value in s.mem.cancelled
  }

  ghost function WithProducer(s: State, p: nat, pc: SubmitPc): State
    requires p < |s.producers|
  {
    s.(producers := s.producers[p := pc])
  }

  ghost function WithWorker(s: State, w: nat, pc: WorkPc): State
    requires w < |s.workers|
  {
    s.(workers := s.workers[w := pc])
  }

  ghost function WithPromise(s: State, id: nat, v: Promise): State {
    if id < |s.mem.promises| && s.mem.promises[id].Unset? then s.(mem := s.mem.(promises := s.mem.promises[id := v])) else s
  }

  ghost function Breaks(s: State): bool {
    s.cfg.breaker && 0 < s.cfg.maxQueue && s.mem.counter >= s.cfg.maxQueue
  }

  ghost function Max(a: nat, b: nat): nat { if a < b then b else a }

  ghost function Begun(s: State, p: nat, kind: Kind): State
    requires p < |s.producers|
  {
    var t := Task(|s.mem.promises|, kind);
    if IsFired(s, kind) then
      s.(mem := s.mem.(promises := s.mem.promises + [Cancelled]),
         hist := s.hist.(refuseLog := s.hist.refuseLog + [t], fired := s.hist.fired + [t.id]))
    else
      WithProducer(s, p, Entered(t))
        .(mem := s.mem.(promises := s.mem.promises + [if kind.Plain? then NoFuture else Unset]))
  }

  ghost function Checked(s: State, p: nat): State
    requires p < |s.producers| && s.producers[p].Entered?
  {
    var t := s.producers[p].task;
    if Breaks(s) then
      WithProducer(s, p, Idle)
        .(mem := s.mem.(dropped := s.mem.dropped + 1), hist := s.hist.(dropLog := s.hist.dropLog + [t]))
    else
      WithProducer(s, p, Admitted(t))
  }

  ghost function DrawnAt(s: State, p: nat): State
    requires Shape(s) && p < |s.producers| && s.producers[p].Admitted?
  {
    var t := s.producers[p].task;
    if s.cfg.mode.Fifo? then
      WithProducer(s, p, Drawn(t, 0))
    else
      var q := s.mem.rr % s.cfg.threads;
      WithProducer(s, p, Drawn(t, q))
        .(mem := s.mem.(rr := (s.mem.rr + 1) % WORD), hist := s.hist.(draws := s.hist.draws + [q]))
  }

  ghost function PushedBy(s: State, p: nat): State
    requires Shape(s) && p < |s.producers| && s.producers[p].Drawn?
  {
    var t, q := s.producers[p].task, s.producers[p].q;
    var after := s.mem.queues[q] + [Item(t, |s.hist.pushLog|)];
    WithProducer(s, p, Pushed(q, |after|))
      .(mem := s.mem.(queues := s.mem.queues[q := after], qOwner := s.mem.qOwner[q := Some(p)]),
        hist := s.hist.(pushLog := s.hist.pushLog + [t], peak := Max(s.hist.peak, |after|)))
  }

  /** What stays in a queue when one of its ends is taken. */
  ghost function RestOf(dq: seq<Item>, back: bool): seq<Item>
    requires dq != []
  {
    if back then dq[..|dq| - 1] else dq[1..]
  }

  ghost function PopOf(s: State, w: nat, q: nat, back: bool): Pop
    requires q < |s.mem.queues| && s.mem.queues[q] != []
  {
    var dq := s.mem.queues[q];
    Pop(w, q, if back then dq[|dq| - 1] else dq[0], back)
  }

  /** Worker w takes one end of queue q. */
  ghost function Taken(s: State, w: nat, q: nat, back: bool): State
    requires Shape(s) && w < |s.workers| && q < |s.mem.queues| && s.mem.queues[q] != []
  {
    var pop := PopOf(s, w, q, back);
    WithWorker(s, w, Got(pop.item.task))
      .(mem := s.mem.(queues := s.mem.queues[q := RestOf(s.mem.queues[q], back)],
                      stolen := s.mem.stolen + if back then 1 else 0),
        hist := s.hist.(popLog := s.hist.popLog + [pop],
                        latePops := if s.mem.running then s.hist.latePops
                                    else s.hist.latePops[w := s.hist.latePops[w] + 1]))
  }

  lemma TakenChanges(s: State, w: nat, q: nat, back: bool)
    requires Shape(s) && w < |s.workers| && q < |s.mem.queues| && s.mem.queues[q] != []
    ensures var t := Taken(s, w, q, back);
      && Shape(t) && t.cfg == s.cfg && t.producers == s.producers
      && t.workers == s.workers[w := Got(PopOf(s, w, q, back).item.task)]
      && t.mem.queues == s.mem.queues[q := RestOf(s.mem.queues[q], back)]
      && t.hist.popLog == s.hist.popLog + [PopOf(s, w, q, back)]
      && t.hist.pushLog == s.hist.pushLog
      && t.mem.stolen == s.mem.stolen + if back then 1 else 0
  {
  }

  /** Worker w has nothing more to do for its task. */
  ghost function Retired(s: State, w: nat, t: Task): State
    requires w < |s.workers|
  {
    WithWorker(s, w, Dropping).(hist := s.hist.(doneLog := s.hist.doneLog + [t]))
  }

  ghost function Wrapped(s: State, w: nat): State
    requires w < |s.workers| && s.workers[w].Wrapping?
  {
    var t := s.workers[w].task;
    if t.kind.Plain? then
      Retired(s, w, t)
    else if IsFired(s, t.kind) then
      var r := Retired(s, w, t);
      WithPromise(r.(hist := r.hist.(fired := r.hist.fired + [t.id])), t.id, Cancelled)
    else
      WithWorker(s, w, Executing(t)).(hist := s.hist.(ran := s.hist.ran + [t.id]))
  }

  ghost function SubmitStep(s: State, p: nat, act: SubmitAct): State
    requires Shape(s) && SubmitEnabled(s, p, act)
  {
    var pc := s.producers[p];
    match act
    case Begin(kind) => Begun(s, p, kind)
    case Check => Checked(s, p)
    case Draw => DrawnAt(s, p)
    case Push => PushedBy(s, p)
    case LoadMark => WithProducer(s, p, Swapping(pc.q, pc.len, s.mem.mark))
    case SwapMark => WithProducer(s, p, pc.(prev := pc.len)).(mem := s.mem.(mark := pc.len))
    case RetryMark => WithProducer(s, p, pc.(prev := s.mem.mark))
    case Unlock => WithProducer(s, p, Uncounted).(mem := s.mem.(qOwner := s.mem.qOwner[pc.q := None]))
    case Count => WithProducer(s, p, Counted).(mem := s.mem.(counter := (s.mem.counter + 1) % WORD))
    case LockToSignal => WithProducer(s, p, Signalling).(mem := s.mem.(mutex := Some(Producer(p))))
    case SignalAll => WithProducer(s, p, Idle).(mem := s.mem.(mutex := None), workers := WakeAll(s.workers))
  }

  ghost function WorkStep(s: State, w: nat, act: WorkAct): State
    requires Shape(s) && WorkEnabled(s, w, act)
  {
    var pc := s.workers[w];
    match act
    case Loop => WithWorker(s, w, if s.mem.running then Wanting else Leaving)
    case LockToTest => WithWorker(s, w, TestRunning).(mem := s.mem.(mutex := Some(Worker(w))))
    case SeeRunning =>
      if s.mem.running then WithWorker(s, w, TestCount) else WithWorker(s, w, Owning).(mem := s.mem.(mutex := None))
    case SeeCount =>
      if s.mem.counter == 0 then WithWorker(s, w, BeforeWait) else WithWorker(s, w, Owning).(mem := s.mem.(mutex := None))
    case Wait => WithWorker(s, w, Asleep).(mem := s.mem.(mutex := None))
    case SpuriousWake => WithWorker(s, w, Woken)
    case PopOwn =>
      if s.mem.queues[w] != [] then Taken(s, w, w, false)
      else WithWorker(s, w, if s.cfg.mode.WorkStealing? then Stealing else Dropping)
    case Steal(v) => if s.mem.queues[v] != [] then Taken(s, w, v, true) else WithWorker(s, w, Dropping)
    case Discount => WithWorker(s, w, Discounted(pc.task)).(mem := s.mem.(counter := (s.mem.counter + WORD - 1) % WORD))
    case Tally => WithWorker(s, w, Calling(pc.task)).(mem := s.mem.(processed := s.mem.processed + 1))
    case Call => WithWorker(s, w, Wrapping(pc.task)).(hist := s.hist.(callLog := s.hist.callLog + [pc.task]))
    case Wrap => Wrapped(s, w)
    case Finish(returned) =>
      WithPromise(Retired(s, w, pc.task), pc.task.id, if returned then Value else Failed)
    case ReportDrops => WithWorker(DropsTaken(s), w, Top)
    case Leave =>
      WithWorker(s, w, Gone)
        .(mem := s.mem.(active := if s.mem.active > 0 then s.mem.active - 1 else WORD - 1, stopped := true))
  }

  ghost function DropsTaken(s: State): State {
    s.(mem := s.mem.(dropped := 0), hist := s.hist.(reported := s.hist.reported + s.mem.dropped))
  }

  ghost function OtherStep(s: State, act: OtherAct): State {
    match act
    case StopStore => s.(mem := s.mem.(running := false), dtor := Stopping)
    case StopSignal => s.(dtor := Signalled, workers := WakeAll(s.workers))
    case StopJoin => s.(dtor := Joined)
    case StopFinal => s.(mem := s.mem.(stopped := true), dtor := Destroyed)
    case SetToken(token, on) =>
        s.(mem := s.mem.(cancelled := if on then s.mem.cancelled + {token} else s.mem.cancelled - {token}))
    case TakeDropped => DropsTaken(s)
  }

  ghost function Step(s: State, a: Action): State
    requires Shape(s) && Enabled(s, a)
  {
    match a
    case Submit(p, act) => SubmitStep(s, p, act)
    case Work(w, act) => WorkStep(s, w, act)
    case Other(act) => OtherStep(s, act)
  }

  /** The actions in `acts`, one after the other, lead from s to t. */
  ghost predicate Runs(s: State, acts: seq<Action>, t: State)
    decreases |acts|
  {
    if acts == [] then s == t
    else Shape(s) && Enabled(s, acts[0]) && Runs(Step(s, acts[0]), acts[1..], t)
  }

  ghost predicate Leads(s: State, t: State) { exists acts :: Runs(s, acts, t) }

  ghost predicate Reachable(s: State) { 0 < s.cfg.threads && Leads(Init(s.cfg), s) }

  lemma LeadsHere(s: State)
    ensures Leads(s, s)
  {
    assert Runs(s, [], s);
  }

  lemma LeadsOneStep(s: State, t: State, a: Action)
    requires Leads(s, t) && Shape(t) && Enabled(t, a)
    ensures Leads(s, Step(t, a))
  {
    var acts :| Runs(s, acts, t);
    RunsSnoc(s, acts, t, a);
  }

  lemma {:induction false} RunsSnoc(s: State, acts: seq<Action>, t: State, a: Action)
    requires Runs(s, acts, t) && Shape(t) && Enabled(t, a)
    ensures Runs(s, acts + [a], Step(t, a))
    decreases |acts|
  {
    if acts == [] {
      assert Runs(Step(t, a), [], Step(t, a));
      assert ([a])[1..] == [];
    } else {
      RunsSnoc(Step(s, acts[0]), acts[1..], t, a);
      assert (acts + [a])[1..] == acts[1..] + [a];
    }
  }

  // ---------- shape ----------

  lemma SubmitKeepsShape(s: State, p: nat, act: SubmitAct)
    requires Shape(s) && SubmitEnabled(s, p, act)
    ensures Shape(SubmitStep(s, p, act)) && SubmitStep(s, p, act).cfg == s.cfg
  {
  }

  lemma WorkKeepsShape(s: State, w: nat, act: WorkAct)
    requires Shape(s) && WorkEnabled(s, w, act)
    ensures Shape(WorkStep(s, w, act)) && WorkStep(s, w, act).cfg == s.cfg
  {
  }

  lemma OtherKeepsShape(s: State, act: OtherAct)
    requires Shape(s) && OtherEnabled(s, act)
    ensures Shape(OtherStep(s, act)) && OtherStep(s, act).cfg == s.cfg
  {
  }
}
