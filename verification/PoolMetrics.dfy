/** The processor's metrics as seen by its getters, against the logs of what happened. */
module PoolMetrics {
  import opened Sums
  import opened PoolModel
  import PoolCounting

  ghost function Untallied(pc: WorkPc): nat { if pc.Got? || pc.Discounted? then 1 else 0 }

  ghost predicate Metrics(s: State) {
    && Shape(s)
    && Queued(s) + |s.hist.popLog| == |s.hist.pushLog|
    && s.mem.processed + Sum(Untallied, s.workers) == |s.hist.popLog|
    && s.mem.dropped + s.hist.reported == |s.hist.dropLog|
  }

  lemma SubmitKeepsDrops(s: State, p: nat, act: SubmitAct)
    requires Metrics(s) && SubmitEnabled(s, p, act)
    ensures var t := SubmitStep(s, p, act);
      && t.mem.dropped + t.hist.reported == |t.hist.dropLog|
      && t.mem.processed == s.mem.processed
      && Sum(Untallied, t.workers) == Sum(Untallied, s.workers)
  {
    PoolCounting.WakeAllKeepsSum(Untallied, s.workers);
  }

  lemma WorkDrops(s: State, w: nat, act: WorkAct)
    requires Metrics(s) && WorkEnabled(s, w, act)
    ensures var t := WorkStep(s, w, act);
      t.mem.dropped + t.hist.reported == |t.hist.dropLog|
  {
  }

  lemma WorkTallies(s: State, w: nat, act: WorkAct)
    requires Shape(s) && WorkEnabled(s, w, act)
    ensures var t := WorkStep(s, w, act);
      && t.mem.processed == s.mem.processed + (if act.Tally? then 1 else 0)
      && t.workers == s.workers[w := t.workers[w]]
      && Untallied(t.workers[w]) + (if act.Tally? then 1 else 0)
         == Untallied(s.workers[w]) + (if t.workers[w].Got? then 1 else 0)
  {
  }

  lemma StepKeepsMetrics(s: State, a: Action)
    requires Metrics(s) && Enabled(s, a)
    ensures Metrics(Step(s, a))
  {
    hide SubmitStep, WorkStep;
    match a
    case Submit(p, act) =>
      SubmitKeepsShape(s, p, act);
      SubmitKeepsDrops(s, p, act);
      PoolCounting.SubmitMovesQueues(s, p, act);
    case Work(w, act) =>
      WorkKeepsShape(s, w, act);
      WorkTallies(s, w, act);
      WorkDrops(s, w, act);
      PoolCounting.WorkMovesQueues(s, w, act);
      SumUpdate(Untallied, s.workers, w, WorkStep(s, w, act).workers[w]);
    case Other(act) =>
      OtherKeepsShape(s, act);
      PoolCounting.WakeAllKeepsSum(Untallied, s.workers);
  }

  lemma {:induction false} RunsKeepMetrics(s: State, acts: seq<Action>, t: State)
    requires Metrics(s) && Runs(s, acts, t)
    ensures Metrics(t)
    decreases |acts|
  {
    if acts != [] {
      StepKeepsMetrics(s, acts[0]);
      RunsKeepMetrics(Step(s, acts[0]), acts[1..], t);
    }
  }

  /** What the getters return: the processed count is the tasks popped, less those popped but not yet
      counted; nothing pushed is missing from queues and pops; and every drop is either still in the
      drop counter or was handed to exactly one of its readers. */
  lemma MetricsAccounting(s: State)
    requires Reachable(s)
    ensures s.mem.processed + Sum(Untallied, s.workers) == |s.hist.popLog|
    ensures Queued(s) + |s.hist.popLog| == |s.hist.pushLog|
    ensures s.mem.dropped + s.hist.reported == |s.hist.dropLog|
  {
    var s0 := Init(s.cfg);
    SumConstant(Length, s0.mem.queues, []);
    SumConstant(Untallied, s0.workers, Top);
    var acts :| Runs(s0, acts, s);
    RunsKeepMetrics(s0, acts, s);
  }

  /** After a worker has handled the drops, every drop so far has been handed to a reader. */
  lemma DropsHandedOver(s: State, w: nat)
    requires Reachable(s) && Shape(s) && WorkEnabled(s, w, ReportDrops)
    ensures var t := WorkStep(s, w, ReportDrops); t.mem.dropped == 0 && t.hist.reported == |t.hist.dropLog|
  {
    MetricsAccounting(s);
  }

  /** Once every worker has left, exactly the tasks that were ever popped have been processed, and all
      others that were pushed are still queued. */
  lemma ProcessedAtTheEnd(s: State)
    requires Reachable(s) && forall w :: 0 <= w < |s.workers| ==> s.workers[w].Gone?
    ensures s.mem.processed == |s.hist.popLog|
    ensures Queued(s) == |s.hist.pushLog| - s.mem.processed
  {
    MetricsAccounting(s);
    SumConstant(Untallied, s.workers, Gone);
  }
}
