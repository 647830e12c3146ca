/** Where every task is: conservation, exactly-once execution, and promises that resolve once. */
module PoolTasks {
  import opened Sums
  import opened PoolModel
  import PoolCounting

  // ---------- weights that look for one task id ----------

  ghost predicate Is(t: Task, id: nat, results: bool) { t.id == id && (results ==> t.kind.WithResult?) }

  ghost function TaskW(id: nat, results: bool): Task -> nat {
    (t: Task) => if Is(t, id, results) then 1 else 0
  }

  ghost function ItemW(id: nat, results: bool): Item -> nat {
    (x: Item) => if Is(x.task, id, results) then 1 else 0
  }

  ghost function QueueW(id: nat, results: bool): seq<Item> -> nat {
    (q: seq<Item>) => Sum(ItemW(id, results), q)
  }

  ghost function SubmitW(id: nat, results: bool): SubmitPc -> nat {
    (pc: SubmitPc) =>
      if (pc.Entered? || pc.Admitted? || pc.Drawn?) && Is(pc.task, id, results) then 1 else 0
  }

  ghost predicate InHand(pc: WorkPc) {
    pc.Got? || pc.Discounted? || pc.Calling? || pc.Wrapping? || pc.Executing?
  }

  ghost function WorkW(id: nat, results: bool): WorkPc -> nat {
    (pc: WorkPc) => if InHand(pc) && Is(pc.task, id, results) then 1 else 0
  }

  ghost function ExecW(id: nat): WorkPc -> nat {
    (pc: WorkPc) => if pc.Executing? && pc.task.id == id then 1 else 0
  }

  ghost function NatW(id: nat): nat -> nat { (x: nat) => if x == id then 1 else 0 }

  ghost function PopW(id: nat): Pop -> nat { (x: Pop) => if x.item.task.id == id then 1 else 0 }

  /** Occurrences of the task in a producer's hand, a queue or a worker's hand. */
  ghost function Live(s: State, id: nat, results: bool): nat {
    Sum(SubmitW(id, results), s.producers) + Sum(QueueW(id, results), s.mem.queues)
    + Sum(WorkW(id, results), s.workers)
  }

  ghost function Logged(log: seq<Task>, id: nat, results: bool): nat { Sum(TaskW(id, results), log) }

  ghost function Births(s: State, act: SubmitAct, id: nat, results: bool): nat {
    if act.Begin? && !IsFired(s, act.kind) && Is(Task(|s.mem.promises|, act.kind), id, results) then 1 else 0
  }

  lemma PushMovesTask(s: State, p: nat, id: nat, results: bool)
    requires Shape(s) && SubmitEnabled(s, p, Push)
    ensures Live(PushedBy(s, p), id, results) == Live(s, id, results)
  {
    var t := PushedBy(s, p);
    var q := s.producers[p].q;
    SumUpdate(SubmitW(id, results), s.producers, p, t.producers[p]);
    SumUpdate(QueueW(id, results), s.mem.queues, q, t.mem.queues[q]);
    SumSnoc(ItemW(id, results), s.mem.queues[q], Item(s.producers[p].task, |s.hist.pushLog|));
  }

  /** A producer's action other than the push moves at most its own task, to the drop log or nowhere. */
  lemma SubmitHands(s: State, p: nat, act: SubmitAct, id: nat, results: bool)
    requires Shape(s) && SubmitEnabled(s, p, act) && !act.Push?
    ensures var t := SubmitStep(s, p, act);
      var w := SubmitW(id, results);
      var drops := act.Check? && Breaks(s);
      && t.producers == s.producers[p := t.producers[p]] && t.mem.queues == s.mem.queues
      && t.workers == (if act.SignalAll? then WakeAll(s.workers) else s.workers)
      && t.hist.dropLog == (if drops then s.hist.dropLog + [s.producers[p].task] else s.hist.dropLog)
      && w(t.producers[p]) + (if drops then TaskW(id, results)(s.producers[p].task) else 0)
         == w(s.producers[p]) + Births(s, act, id, results)
  {
  }

  lemma SubmitMovesTask(s: State, p: nat, act: SubmitAct, id: nat, results: bool)
    requires Shape(s) && SubmitEnabled(s, p, act)
    ensures var t := SubmitStep(s, p, act);
      Live(t, id, results) + Logged(t.hist.dropLog, id, results)
      == Live(s, id, results) + Logged(s.hist.dropLog, id, results) + Births(s, act, id, results)
  {
    if act.Push? {
      PushMovesTask(s, p, id, results);
    } else {
      var t := SubmitStep(s, p, act);
      SubmitHands(s, p, act, id, results);
      hide SubmitStep, Births, Breaks;
      SumUpdate(SubmitW(id, results), s.producers, p, t.producers[p]);
      PoolCounting.WakeAllKeepsSum(WorkW(id, results), s.workers);
      if act.Check? && Breaks(s) {
        SumSnoc(TaskW(id, results), s.hist.dropLog, s.producers[p].task);
      }
    }
  }

  /** Both ends of a queue account for it. */
  lemma RestWeighs(weight: Item -> nat, dq: seq<Item>, back: bool)
    requires dq != []
    ensures Sum(weight, RestOf(dq, back)) + weight(if back then dq[|dq| - 1] else dq[0]) == Sum(weight, dq)
  {
    if back {
      SumSnoc(weight, dq[..|dq| - 1], dq[|dq| - 1]);
      assert dq[..|dq| - 1] + [dq[|dq| - 1]] == dq;
    }
  }

  lemma PopMovesTask(s: State, w: nat, q: nat, back: bool, id: nat, results: bool)
    requires Shape(s) && w < |s.workers| && q < |s.mem.queues| && s.mem.queues[q] != []
    requires !InHand(s.workers[w])
    ensures Live(Taken(s, w, q, back), id, results) == Live(s, id, results)
  {
    var t := Taken(s, w, q, back);
    var dq := s.mem.queues[q];
    TakenChanges(s, w, q, back);
    hide Taken, Shape, RestOf;
    RestWeighs(ItemW(id, results), dq, back);
    SumUpdate(WorkW(id, results), s.workers, w, t.workers[w]);
    SumUpdate(QueueW(id, results), s.mem.queues, q, t.mem.queues[q]);
  }

  ghost predicate SameRecords(s: State, t: State) {
    && t.mem.promises == s.mem.promises && t.hist.ran == s.hist.ran && t.hist.fired == s.hist.fired
    && t.hist.dropLog == s.hist.dropLog && t.hist.refuseLog == s.hist.refuseLog
    && t.cfg == s.cfg && t.hist.pushLog == s.hist.pushLog
  }

  /** Everything but popping and wrapping leaves the worker with what it had. */
  lemma WorkPassesOn(s: State, w: nat, act: WorkAct)
    requires Shape(s) && WorkEnabled(s, w, act) && !act.Wrap? && !act.Finish?
    ensures var t := WorkStep(s, w, act);
      && t.producers == s.producers && t.workers == s.workers[w := t.workers[w]]
      && t.hist.doneLog == s.hist.doneLog && SameRecords(s, t)
      && !s.workers[w].Executing? && !t.workers[w].Executing?
      && (t.workers[w].Stealing? ==> s.cfg.mode.WorkStealing?)
      && !s.workers[w].Wrapping? && (t.workers[w].Wrapping? <==> act.Call?)
      && t.hist.callLog == (if act.Call? then s.hist.callLog + [s.workers[w].task] else s.hist.callLog)
      && (if t.workers[w].Got? then
            var q := if act.PopOwn? then w else if act.Steal? then act.victim else |s.mem.queues|;
            q < |s.mem.queues| && s.mem.queues[q] != [] && t == Taken(s, w, q, act.Steal?)
          else
           && t.mem.queues == s.mem.queues && t.hist.popLog == s.hist.popLog
           && (InHand(t.workers[w]) <==> InHand(s.workers[w]))
           && (InHand(s.workers[w]) ==> t.workers[w].task == s.workers[w].task))
  {
  }

  /** Wrapping and finishing touch the worker's own task and its promise only. */
  lemma WorkWraps(s: State, w: nat, act: WorkAct)
    requires Shape(s) && WorkEnabled(s, w, act) && (act.Wrap? || act.Finish?)
    ensures var t := WorkStep(s, w, act);
      var task := s.workers[w].task;
      var runs := act.Wrap? && task.kind.WithResult? && !IsFired(s, task.kind);
      var cancels := act.Wrap? && task.kind.WithResult? && IsFired(s, task.kind);
      && t.producers == s.producers && t.mem.queues == s.mem.queues
      && t.workers == s.workers[w := if runs then Executing(task) else Dropping]
      && t.hist.dropLog == s.hist.dropLog && t.hist.refuseLog == s.hist.refuseLog
      && t.hist.popLog == s.hist.popLog && t.hist.callLog == s.hist.callLog
      && t.cfg == s.cfg && t.hist.pushLog == s.hist.pushLog
      && t.hist.doneLog == (if runs then s.hist.doneLog else s.hist.doneLog + [task])
      && t.hist.ran == (if runs then s.hist.ran + [task.id] else s.hist.ran)
      && t.hist.fired == (if cancels then s.hist.fired + [task.id] else s.hist.fired)
      && t.mem.promises == (if cancels then WithPromise(s, task.id, Cancelled).mem.promises
                            else if act.Finish? then
                              WithPromise(s, task.id, if act.returned then Value else Failed).mem.promises
                            else s.mem.promises)
  {
  }

  lemma WrapMovesTask(s: State, w: nat, act: WorkAct, id: nat, results: bool)
    requires Shape(s) && WorkEnabled(s, w, act) && (act.Wrap? || act.Finish?)
    ensures var t := WorkStep(s, w, act);
      Live(t, id, results) + Logged(t.hist.doneLog, id, results)
      == Live(s, id, results) + Logged(s.hist.doneLog, id, results)
  {
    var t := WorkStep(s, w, act);
    WorkWraps(s, w, act);
    hide WorkStep, Shape, WithPromise, IsFired;
    SumUpdate(WorkW(id, results), s.workers, w, t.workers[w]);
    SumSnoc(TaskW(id, results), s.hist.doneLog, s.workers[w].task);
  }

  lemma WorkMovesTask(s: State, w: nat, act: WorkAct, id: nat, results: bool)
    requires Shape(s) && WorkEnabled(s, w, act)
    ensures var t := WorkStep(s, w, act);
      Live(t, id, results) + Logged(t.hist.doneLog, id, results)
      == Live(s, id, results) + Logged(s.hist.doneLog, id, results)
  {
    hide WorkStep, Taken;
    var t := WorkStep(s, w, act);
    if act.Wrap? || act.Finish? {
      WrapMovesTask(s, w, act, id, results);
    } else {
      WorkPassesOn(s, w, act);
      if t.workers[w].Got? {
        PopMovesTask(s, w, if act.PopOwn? then w else act.victim, act.Steal?, id, results);
      } else {
        SumUpdate(WorkW(id, results), s.workers, w, t.workers[w]);
      }
    }
  }

  // ---------- conservation ----------

  ghost function One(b: bool): nat { if b then 1 else 0 }

  /** The task with this id is in exactly one place once its submission has begun: dropped, refused
      because its token had fired, in a producer's hand, in one queue, in one worker's hand, or done. */
  ghost predicate InOnePlace(s: State, id: nat) {
    Live(s, id, false) + Logged(s.hist.dropLog, id, false) + Logged(s.hist.refuseLog, id, false)
    + Logged(s.hist.doneLog, id, false) == One(id < |s.mem.promises|)
  }

  /** The records a producer's action changes. */
  lemma SubmitRecords(s: State, p: nat, act: SubmitAct)
    requires Shape(s) && SubmitEnabled(s, p, act)
    ensures var t := SubmitStep(s, p, act);
      && t.hist.doneLog == s.hist.doneLog && t.hist.ran == s.hist.ran
      && t.workers == (if act.SignalAll? then WakeAll(s.workers) else s.workers)
      && (act.Check? || t.hist.dropLog == s.hist.dropLog)
      && (if act.Begin? then
            var task, fired := Task(|s.mem.promises|, act.kind), IsFired(s, act.kind);
            && t.mem.promises == s.mem.promises
                 + [if fired then Cancelled else if act.kind.Plain? then NoFuture else Unset]
            && t.hist.refuseLog == (if fired then s.hist.refuseLog + [task] else s.hist.refuseLog)
            && t.hist.fired == (if fired then s.hist.fired + [task.id] else s.hist.fired)
          else
            && t.mem.promises == s.mem.promises && t.hist.refuseLog == s.hist.refuseLog
            && t.hist.fired == s.hist.fired)
  {
  }

  lemma SubmitKeepsPlace(s: State, p: nat, act: SubmitAct, id: nat)
    requires Shape(s) && SubmitEnabled(s, p, act) && InOnePlace(s, id)
    ensures InOnePlace(SubmitStep(s, p, act), id)
  {
    hide SubmitStep;
    SubmitRecords(s, p, act);
    SubmitMovesTask(s, p, act, id, false);
    if act.Begin? && IsFired(s, act.kind) {
      SumSnoc(TaskW(id, false), s.hist.refuseLog, Task(|s.mem.promises|, act.kind));
    }
  }

  lemma WorkKeepsPlace(s: State, w: nat, act: WorkAct, id: nat)
    requires Shape(s) && WorkEnabled(s, w, act) && InOnePlace(s, id)
    ensures InOnePlace(WorkStep(s, w, act), id)
  {
    hide WorkStep;
    WorkMovesTask(s, w, act, id, false);
    if act.Wrap? || act.Finish? {
      WorkWraps(s, w, act);
    } else {
      WorkPassesOn(s, w, act);
    }
  }

  // ---------- promises ----------

  ghost function PromiseOf(s: State, id: nat): Promise {
    if id < |s.mem.promises| then s.mem.promises[id] else NoFuture
  }

  /** A promise is unset exactly while its task is somewhere on the way or was dropped; fn ran for it
      exactly when it is running now or the promise holds fn's outcome; some check read the token as
      fired exactly when the promise holds the cancellation. */
  ghost predicate PromiseAccounted(s: State, id: nat) {
    && Live(s, id, true) + Logged(s.hist.dropLog, id, true) == One(PromiseOf(s, id).Unset?)
    && Sum(NatW(id), s.hist.ran) == Sum(ExecW(id), s.workers) + One(PromiseOf(s, id).Value? || PromiseOf(s, id).Failed?)
    && Sum(NatW(id), s.hist.fired) == One(PromiseOf(s, id).Cancelled?)
  }

  lemma SubmitKeepsPromise(s: State, p: nat, act: SubmitAct, id: nat)
    requires Shape(s) && SubmitEnabled(s, p, act) && PromiseAccounted(s, id)
    ensures PromiseAccounted(SubmitStep(s, p, act), id)
  {
    hide SubmitStep;
    SubmitRecords(s, p, act);
    SubmitMovesTask(s, p, act, id, true);
    SumSnoc<nat>(NatW(id), s.hist.fired, |s.mem.promises|);
    PoolCounting.WakeAllKeepsSum(ExecW(id), s.workers);
  }

  /** A worker about to resolve a promise finds it unset: no resolution is ever attempted twice. */
  lemma ResolvesUnset(s: State, w: nat)
    requires Shape(s) && w < |s.workers| && InHand(s.workers[w]) && s.workers[w].task.kind.WithResult?
    requires PromiseAccounted(s, s.workers[w].task.id)
    ensures s.workers[w].task.id < |s.mem.promises| && s.mem.promises[s.workers[w].task.id].Unset?
  {
    SumElement(WorkW(s.workers[w].task.id, true), s.workers, w);
  }

  /** Wrapping and finishing concern no other task. */
  lemma WrapKeepsOtherLogs(s: State, w: nat, act: WorkAct, id: nat)
    requires Shape(s) && WorkEnabled(s, w, act) && (act.Wrap? || act.Finish?) && id != s.workers[w].task.id
    ensures var t := WorkStep(s, w, act);
      && Sum(NatW(id), t.hist.ran) == Sum(NatW(id), s.hist.ran)
      && Sum(NatW(id), t.hist.fired) == Sum(NatW(id), s.hist.fired)
      && Logged(t.hist.doneLog, id, true) == Logged(s.hist.doneLog, id, true)
  {
    var task := s.workers[w].task;
    WorkWraps(s, w, act);
    hide WorkStep, WorkEnabled, IsFired, Shape, WithPromise;
    SumSnoc(TaskW(id, true), s.hist.doneLog, task);
    SumSnoc(NatW(id), s.hist.ran, task.id);
    SumSnoc(NatW(id), s.hist.fired, task.id);
  }

  lemma WrapKeepsOthers(s: State, w: nat, act: WorkAct, id: nat)
    requires Shape(s) && WorkEnabled(s, w, act) && (act.Wrap? || act.Finish?) && id != s.workers[w].task.id
    ensures var t := WorkStep(s, w, act);
      && Sum(ExecW(id), t.workers) == Sum(ExecW(id), s.workers)
      && PromiseOf(t, id) == PromiseOf(s, id) && t.hist.dropLog == s.hist.dropLog
  {
    var t := WorkStep(s, w, act);
    WorkWraps(s, w, act);
    hide WorkStep, WorkEnabled, IsFired, Shape;
    SumUpdate(ExecW(id), s.workers, w, t.workers[w]);
  }

  /** fn ends: its outcome replaces its running. */
  lemma FinishKeepsOwn(s: State, w: nat, returned: bool)
    requires Shape(s) && WorkEnabled(s, w, Finish(returned))
    requires ExecutesResults(s) && PromiseAccounted(s, s.workers[w].task.id)
    ensures PromiseAccounted(WorkStep(s, w, Finish(returned)), s.workers[w].task.id)
  {
    var act := Finish(returned);
    var t, task := WorkStep(s, w, act), s.workers[w].task;
    WorkMovesTask(s, w, act, task.id, true);
    WorkWraps(s, w, act);
    assert s.workers[w].Executing? && task.kind.WithResult?;
    ResolvesUnset(s, w);
    hide WorkStep, WorkEnabled, Shape, Live, ExecutesResults, IsFired;
    SumUpdate(ExecW(task.id), s.workers, w, t.workers[w]);
    SumSnoc(TaskW(task.id, true), s.hist.doneLog, task);
  }

  /** The second token check: nothing for a plain task, the cancellation, or fn begins. */
  lemma WrapKeepsOwn(s: State, w: nat)
    requires Shape(s) && WorkEnabled(s, w, Wrap) && PromiseAccounted(s, s.workers[w].task.id)
    ensures PromiseAccounted(WorkStep(s, w, Wrap), s.workers[w].task.id)
  {
    var t, task := WorkStep(s, w, Wrap), s.workers[w].task;
    var id := task.id;
    WorkMovesTask(s, w, Wrap, id, true);
    WorkWraps(s, w, Wrap);
    if task.kind.WithResult? {
      ResolvesUnset(s, w);
    }
    assert s.workers[w].Wrapping?;
    hide WorkStep, WorkEnabled, Shape, Live;
    SumUpdate(ExecW(id), s.workers, w, t.workers[w]);
    if task.kind.Plain? {
      SumSnoc(TaskW(id, true), s.hist.doneLog, task);
    } else if IsFired(s, task.kind) {
      SumSnoc(TaskW(id, true), s.hist.doneLog, task);
      SumSnoc(NatW(id), s.hist.fired, id);
    } else {
      SumSnoc(NatW(id), s.hist.ran, id);
    }
  }

  lemma WrapKeepsPromise(s: State, w: nat, act: WorkAct, id: nat)
    requires Shape(s) && WorkEnabled(s, w, act) && (act.Wrap? || act.Finish?)
    requires ExecutesResults(s) && PromiseAccounted(s, id) && PromiseAccounted(s, s.workers[w].task.id)
    ensures PromiseAccounted(WorkStep(s, w, act), id)
  {
    if id != s.workers[w].task.id {
      WorkMovesTask(s, w, act, id, true);
      WrapKeepsOtherLogs(s, w, act, id);
      WrapKeepsOthers(s, w, act, id);
      hide WorkStep, WorkEnabled, Shape, Live;
    } else if act.Finish? {
      FinishKeepsOwn(s, w, act.returned);
    } else {
      WrapKeepsOwn(s, w);
    }
  }

  /** Only tasks with a promise reach fn. */
  ghost predicate ExecutesResults(s: State) {
    forall w :: 0 <= w < |s.workers| && s.workers[w].Executing? ==> s.workers[w].task.kind.WithResult?
  }

  lemma WorkKeepsPromise(s: State, w: nat, act: WorkAct, id: nat)
    requires Shape(s) && WorkEnabled(s, w, act)
    requires ExecutesResults(s) && forall i :: PromiseAccounted(s, i)
    ensures PromiseAccounted(WorkStep(s, w, act), id)
  {
    hide WorkStep;
    if act.Wrap? || act.Finish? {
      WrapKeepsPromise(s, w, act, id);
    } else {
      var t := WorkStep(s, w, act);
      WorkMovesTask(s, w, act, id, true);
      WorkPassesOn(s, w, act);
      SumUpdate(ExecW(id), s.workers, w, t.workers[w]);
    }
  }

  lemma OtherKeepsTask(s: State, act: OtherAct, id: nat)
    requires Shape(s) && OtherEnabled(s, act) && InOnePlace(s, id) && PromiseAccounted(s, id) && Tracked(s, id)
    ensures var t := OtherStep(s, act); InOnePlace(t, id) && PromiseAccounted(t, id) && Tracked(t, id)
  {
    PoolCounting.WakeAllKeepsSum(WorkW(id, false), s.workers);
    PoolCounting.WakeAllKeepsSum(WorkW(id, true), s.workers);
    PoolCounting.WakeAllKeepsSum(ExecW(id), s.workers);
    PoolCounting.WakeAllKeepsSum(CalledW(id), s.workers);
  }

  // ---------- each task is popped and called back once ----------

  ghost function CalledW(id: nat): WorkPc -> nat {
    (pc: WorkPc) => if (pc.Wrapping? || pc.Executing?) && pc.task.id == id then 1 else 0
  }

  /** The pops of a task are its stay in a worker's hand, over or not; so are its global callbacks,
      from the moment they have run. */
  ghost predicate Tracked(s: State, id: nat) {
    && Sum(PopW(id), s.hist.popLog) == Sum(WorkW(id, false), s.workers) + Logged(s.hist.doneLog, id, false)
    && Logged(s.hist.callLog, id, false) == Sum(CalledW(id), s.workers) + Logged(s.hist.doneLog, id, false)
  }

  lemma SubmitLogs(s: State, p: nat, act: SubmitAct)
    requires Shape(s) && SubmitEnabled(s, p, act)
    ensures var t := SubmitStep(s, p, act);
      t.hist.popLog == s.hist.popLog && t.hist.callLog == s.hist.callLog
  {
  }

  lemma SubmitKeepsTracked(s: State, p: nat, act: SubmitAct, id: nat)
    requires Shape(s) && SubmitEnabled(s, p, act) && Tracked(s, id)
    ensures Tracked(SubmitStep(s, p, act), id)
  {
    SubmitRecords(s, p, act);
    SubmitLogs(s, p, act);
    hide SubmitStep, SubmitEnabled, Shape;
    PoolCounting.WakeAllKeepsSum(WorkW(id, false), s.workers);
    PoolCounting.WakeAllKeepsSum(CalledW(id), s.workers);
  }

  lemma WrapEnds(s: State, w: nat, act: WorkAct)
    requires Shape(s) && WorkEnabled(s, w, act) && (act.Wrap? || act.Finish?)
    ensures var t := WorkStep(s, w, act); var task := s.workers[w].task;
      && (s.workers[w].Wrapping? || s.workers[w].Executing?)
      && t.hist.popLog == s.hist.popLog && t.hist.callLog == s.hist.callLog
      && ((t.workers == s.workers[w := Executing(task)] && t.hist.doneLog == s.hist.doneLog)
          || (t.workers == s.workers[w := Dropping] && t.hist.doneLog == s.hist.doneLog + [task]))
  {
  }

  lemma WrapKeepsTracked(s: State, w: nat, act: WorkAct, id: nat)
    requires Shape(s) && WorkEnabled(s, w, act) && Tracked(s, id) && (act.Wrap? || act.Finish?)
    ensures Tracked(WorkStep(s, w, act), id)
  {
    var t := WorkStep(s, w, act);
    WrapEnds(s, w, act);
    hide WorkStep, WorkEnabled, Shape;
    SumUpdate(WorkW(id, false), s.workers, w, t.workers[w]);
    SumUpdate(CalledW(id), s.workers, w, t.workers[w]);
    SumSnoc(TaskW(id, false), s.hist.doneLog, s.workers[w].task);
  }

  lemma WorkKeepsTracked(s: State, w: nat, act: WorkAct, id: nat)
    requires Shape(s) && WorkEnabled(s, w, act) && Tracked(s, id)
    ensures Tracked(WorkStep(s, w, act), id)
  {
    hide WorkStep;
    if act.Wrap? || act.Finish? {
      WrapKeepsTracked(s, w, act, id);
    } else {
      var t := WorkStep(s, w, act);
      WorkPassesOn(s, w, act);
      if t.workers[w].Got? {
        var q := if act.PopOwn? then w else act.victim;
        var dq := s.mem.queues[q];
        SumSnoc(PopW(id), s.hist.popLog, Pop(w, q, if act.Steal? then dq[|dq| - 1] else dq[0], act.Steal?));
      } else if act.Call? {
        SumSnoc(TaskW(id, false), s.hist.callLog, s.workers[w].task);
      }
      SumUpdate(WorkW(id, false), s.workers, w, t.workers[w]);
      SumUpdate(CalledW(id), s.workers, w, t.workers[w]);
    }
  }

  // ---------- every reachable state ----------

  ghost predicate Inv(s: State) {
    && Shape(s) && ExecutesResults(s)
    && forall id :: InOnePlace(s, id) && PromiseAccounted(s, id) && Tracked(s, id)
  }

  lemma StepKeepsExecutesResults(s: State, a: Action)
    requires Shape(s) && Enabled(s, a) && ExecutesResults(s)
    ensures Shape(Step(s, a)) && ExecutesResults(Step(s, a))
  {
    match a
    case Submit(p, act) =>
      SubmitKeepsShape(s, p, act);
      SubmitRecords(s, p, act);
    case Work(w, act) =>
      WorkKeepsShape(s, w, act);
      if act.Wrap? || act.Finish? {
        WorkWraps(s, w, act);
      } else {
        WorkPassesOn(s, w, act);
      }
    case Other(act) =>
      OtherKeepsShape(s, act);
  }

  lemma StepKeepsTask(s: State, a: Action, id: nat)
    requires Inv(s) && Enabled(s, a)
    ensures var t := Step(s, a); InOnePlace(t, id) && PromiseAccounted(t, id) && Tracked(t, id)
  {
    hide SubmitStep, WorkStep, OtherStep, InOnePlace, PromiseAccounted, Tracked;
    match a
    case Submit(p, act) =>
      SubmitKeepsPlace(s, p, act, id);
      SubmitKeepsPromise(s, p, act, id);
      SubmitKeepsTracked(s, p, act, id);
    case Work(w, act) =>
      WorkKeepsPlace(s, w, act, id);
      WorkKeepsPromise(s, w, act, id);
      WorkKeepsTracked(s, w, act, id);
    case Other(act) =>
      OtherKeepsTask(s, act, id);
  }

  lemma StepKeepsInv(s: State, a: Action)
    requires Inv(s) && Enabled(s, a)
    ensures Inv(Step(s, a))
  {
    hide Step, InOnePlace, PromiseAccounted, Tracked, ExecutesResults;
    StepKeepsExecutesResults(s, a);
    forall id ensures InOnePlace(Step(s, a), id) && PromiseAccounted(Step(s, a), id) && Tracked(Step(s, a), id) {
      StepKeepsTask(s, a, id);
    }
  }

  lemma InitInv(cfg: Config)
    requires 0 < cfg.threads
    ensures Inv(Init(cfg))
  {
    var s := Init(cfg);
    forall id ensures InOnePlace(s, id) && PromiseAccounted(s, id) && Tracked(s, id) {
      InitTask(cfg, id);
    }
  }

  lemma InitTask(cfg: Config, id: nat)
    requires 0 < cfg.threads
    ensures var s := Init(cfg); InOnePlace(s, id) && PromiseAccounted(s, id) && Tracked(s, id)
  {
    var s := Init(cfg);
    InitLive(cfg, id, true);
    InitLive(cfg, id, false);
    SumNothing(WorkW(id, false), s.workers, Top);
    SumNothing(ExecW(id), s.workers, Top);
    SumNothing(CalledW(id), s.workers, Top);
    assert s.mem.promises == [] && s.hist == History([], [], [], [], [], [], [], [], [], 0, Fill(cfg.threads, 0), 0);
    hide Live, Init;
  }

  lemma InitLive(cfg: Config, id: nat, results: bool)
    ensures Live(Init(cfg), id, results) == 0
  {
    SumNothing(SubmitW(id, results), Fill(cfg.producers, Idle), Idle);
    SumNothing(QueueW(id, results), Fill(cfg.threads, []), []);
    SumNothing(WorkW(id, results), Fill(cfg.threads, Top), Top);
  }

  lemma {:induction false} RunsKeepInv(s: State, acts: seq<Action>, t: State)
    requires Inv(s) && Runs(s, acts, t)
    ensures Inv(t)
    decreases |acts|
  {
    if acts != [] {
      StepKeepsInv(s, acts[0]);
      RunsKeepInv(Step(s, acts[0]), acts[1..], t);
    }
  }

  lemma ReachableInv(s: State)
    requires Reachable(s)
    ensures Inv(s)
  {
    InitInv(s.cfg);
    var acts :| Runs(Init(s.cfg), acts, s);
    RunsKeepInv(Init(s.cfg), acts, s);
  }

  // ---------- main results ----------

  /** Conservation: a submission is in exactly one place, and nothing else exists. */
  lemma {:induction false} Conservation(s: State, id: nat)
    requires Reachable(s)
    ensures Live(s, id, false) + Logged(s.hist.dropLog, id, false) + Logged(s.hist.refuseLog, id, false)
            + Logged(s.hist.doneLog, id, false) == if id < |s.mem.promises| then 1 else 0
  {
    ReachableInv(s);
    assert InOnePlace(s, id);
  }

  /** No task is popped twice, in any mode, by any workers. */
  lemma NoTaskPoppedTwice(s: State, i: nat, j: nat)
    requires Reachable(s) && i < j < |s.hist.popLog|
    ensures s.hist.popLog[i].item.task.id != s.hist.popLog[j].item.task.id
  {
    ReachableInv(s);
    var id := s.hist.popLog[i].item.task.id;
    assert InOnePlace(s, id) && Tracked(s, id);
    if s.hist.popLog[j].item.task.id == id {
      SumTwoElements(PopW(id), s.hist.popLog, i, j);
    }
  }

  /** The global callbacks see a task at most once, and never one that was dropped or refused. */
  lemma CallbacksOnce(s: State, id: nat)
    requires Reachable(s)
    ensures Logged(s.hist.callLog, id, false) <= Sum(PopW(id), s.hist.popLog) <= 1
    ensures Logged(s.hist.callLog, id, false) + Logged(s.hist.dropLog, id, false)
            + Logged(s.hist.refuseLog, id, false) <= 1
  {
    ReachableInv(s);
    assert InOnePlace(s, id) && Tracked(s, id);
    CalledIsHeld(s.workers, id);
  }

  /** fn runs only after the global callbacks have seen the task. */
  lemma CallbacksBeforeFn(s: State, w: nat)
    requires Reachable(s) && w < |s.workers| && s.workers[w].Executing?
    ensures Logged(s.hist.callLog, s.workers[w].task.id, false) == 1
  {
    ReachableInv(s);
    var id := s.workers[w].task.id;
    assert InOnePlace(s, id) && Tracked(s, id);
    SumElement(CalledW(id), s.workers, w);
    CalledIsHeld(s.workers, id);
  }

  lemma {:induction false} CalledIsHeld(ws: seq<WorkPc>, id: nat)
    ensures Sum(CalledW(id), ws) <= Sum(WorkW(id, false), ws)
  {
    if ws != [] {
      CalledIsHeld(ws[1..], id);
    }
  }

  lemma {:induction false} ExecutingIsLive(ws: seq<WorkPc>, id: nat)
    requires forall w :: 0 <= w < |ws| && ws[w].Executing? ==> ws[w].task.kind.WithResult?
    ensures Sum(ExecW(id), ws) <= Sum(WorkW(id, true), ws)
  {
    if ws != [] {
      assert forall w :: 0 <= w < |ws| - 1 ==> ws[1..][w] == ws[w + 1];
      ExecutingIsLive(ws[1..], id);
    }
  }

  /** What a promise says about its task: fn ran at most once; a value or an exception of fn means it
      ran and both token checks were clear; a cancellation means that one check, and only one, read
      the token as fired, and fn never ran. */
  lemma PromiseMeaning(s: State, id: nat)
    requires Reachable(s)
    ensures Sum(NatW(id), s.hist.ran) <= 1 && Sum(NatW(id), s.hist.fired) <= 1
    ensures PromiseOf(s, id).Value? || PromiseOf(s, id).Failed? ==>
              Sum(NatW(id), s.hist.ran) == 1 && Sum(NatW(id), s.hist.fired) == 0
    ensures PromiseOf(s, id).Cancelled? <==> Sum(NatW(id), s.hist.fired) == 1
    ensures PromiseOf(s, id).Cancelled? ==> Sum(NatW(id), s.hist.ran) == 0
    ensures PromiseOf(s, id).Unset? <==> Live(s, id, true) + Logged(s.hist.dropLog, id, true) == 1
  {
    ReachableInv(s);
    assert PromiseAccounted(s, id);
    ExecutingIsLive(s.workers, id);
  }

  /** A task still in a queue has not resolved its promise; this includes the tasks a destroyed
      processor leaves behind. */
  lemma QueuedPromiseUnset(s: State, q: nat, k: nat)
    requires Reachable(s) && q < |s.mem.queues| && k < |s.mem.queues[q]|
    requires s.mem.queues[q][k].task.kind.WithResult?
    ensures PromiseOf(s, s.mem.queues[q][k].task.id).Unset?
  {
    ReachableInv(s);
    var id := s.mem.queues[q][k].task.id;
    assert PromiseAccounted(s, id);
    SumElement(ItemW(id, true), s.mem.queues[q], k);
    SumElement(QueueW(id, true), s.mem.queues, q);
  }

  /** A dropped task never resolves its promise either. */
  lemma DroppedPromiseUnset(s: State, k: nat)
    requires Reachable(s) && k < |s.hist.dropLog| && s.hist.dropLog[k].kind.WithResult?
    ensures PromiseOf(s, s.hist.dropLog[k].id).Unset?
  {
    ReachableInv(s);
    var id := s.hist.dropLog[k].id;
    assert PromiseAccounted(s, id);
    SumElement(TaskW(id, true), s.hist.dropLog, k);
  }

  /** At the moment of resolution the promise is unset, so set_value and set_exception never throw
      because of an earlier resolution. */
  lemma ResolutionSucceeds(s: State, w: nat, act: WorkAct)
    requires Reachable(s) && Shape(s) && WorkEnabled(s, w, act) && act.Finish?
    ensures var id := s.workers[w].task.id;
      PromiseOf(s, id).Unset? && PromiseOf(WorkStep(s, w, act), id) == if act.returned then Value else Failed
  {
    ReachableInv(s);
    assert PromiseAccounted(s, s.workers[w].task.id);
    ResolvesUnset(s, w);
  }

  /** Once resolved, a promise keeps its outcome in every continuation. */
  lemma {:induction false} ResolvedForGood(s: State, acts: seq<Action>, t: State, id: nat)
    requires Shape(s) && Runs(s, acts, t)
    requires id < |s.mem.promises| && !s.mem.promises[id].Unset?
    ensures id < |t.mem.promises| && t.mem.promises[id] == s.mem.promises[id]
    decreases |acts|
  {
    if acts != [] {
      StepKeepsResolved(s, acts[0], id);
      ResolvedForGood(Step(s, acts[0]), acts[1..], t, id);
    }
  }

  lemma StepKeepsResolved(s: State, a: Action, id: nat)
    requires Shape(s) && Enabled(s, a)
    requires id < |s.mem.promises| && !s.mem.promises[id].Unset?
    ensures var t := Step(s, a);
      Shape(t) && id < |t.mem.promises| && t.mem.promises[id] == s.mem.promises[id]
  {
    match a
    case Submit(p, act) =>
      SubmitKeepsShape(s, p, act);
      SubmitRecords(s, p, act);
    case Work(w, act) =>
      WorkKeepsShape(s, w, act);
      if act.Wrap? || act.Finish? {
        WorkWraps(s, w, act);
      } else {
        WorkPassesOn(s, w, act);
      }
    case Other(act) =>
      OtherKeepsShape(s, act);
  }
}
