/** Runs that show the bounds of the task processor to be tight. */
module PoolWitness {
  import opened Sums
  import opened PoolModel
  import opened PoolCounting
  import PoolShutdown

  ghost predicate AllTop(s: State) { forall w :: 0 <= w < |s.workers| ==> s.workers[w].Top? }

  ghost predicate QueuesFree(s: State) { forall q :: 0 <= q < |s.mem.qOwner| ==> s.mem.qOwner[q].None? }

  /** Nobody holds anything, and no worker has moved. */
  ghost predicate Still(s: State) { Inv(s) && AllTop(s) && s.mem.mutex.None? && QueuesFree(s) }

  /** One more step of producer p, with everything the constructions below need to know. */
  lemma Advance(s0: State, s: State, p: nat, act: SubmitAct) returns (t: State)
    requires Leads(s0, s) && Inv(s) && SubmitEnabled(s, p, act)
    ensures t == SubmitStep(s, p, act) && Leads(s0, t) && Inv(t) && t.cfg == s.cfg
    ensures Queued(t) == Queued(s) + if act.Push? then 1 else 0
    ensures |t.producers| == |s.producers| && t.producers == s.producers[p := t.producers[p]]
    ensures AllTop(s) ==> AllTop(t)
    ensures !act.LockToSignal? && !act.SignalAll? ==> t.mem.mutex == s.mem.mutex
    ensures !act.Push? && !act.Unlock? ==> t.mem.qOwner == s.mem.qOwner
    ensures Same(s, t, act) && (!act.Push? && !act.Count? ==> SameStock(s, t))
  {
    t := SubmitStep(s, p, act);
    LeadsOneStep(s0, s, Submit(p, act));
    StepKeepsInv(s, Submit(p, act));
    SubmitMovesQueues(s, p, act);
    SubmitKeepsShape(s, p, act);
    SubmitKeepsTop(s, p, act);
    hide SubmitStep, SubmitEnabled, Inv, Shape;
  }

  /** What producers leave alone. */
  ghost predicate Same(s: State, t: State, act: SubmitAct) {
    && t.mem.running == s.mem.running && t.dtor == s.dtor
    && t.mem.promises == (if act == Begin(Future) then s.mem.promises + [Unset]
                          else if act.Begin? then t.mem.promises else s.mem.promises)
    && |t.hist.draws| == |s.hist.draws| + if act.Draw? && !s.cfg.mode.Fifo? then 1 else 0
  }

  ghost predicate SameStock(s: State, t: State) { t.mem.queues == s.mem.queues && t.mem.counter == s.mem.counter }

  lemma SubmitKeepsTop(s: State, p: nat, act: SubmitAct)
    requires Shape(s) && SubmitEnabled(s, p, act)
    ensures var t := SubmitStep(s, p, act);
      && t.producers == s.producers[p := t.producers[p]] && Same(s, t, act)
      && (!act.Push? && !act.Count? ==> SameStock(s, t))
      && (AllTop(s) ==> AllTop(t))
      && (!act.LockToSignal? && !act.SignalAll? ==> t.mem.mutex == s.mem.mutex)
      && (!act.Push? && !act.Unlock? ==> t.mem.qOwner == s.mem.qOwner)
  {
  }

  /** A task with a promise and no token. */
  const Future: Kind := WithResult(None)

  /** From a push to the release of the queue mutex, through the compare-and-swap loop. */
  lemma MarkAndUnlock(s0: State, s: State, p: nat) returns (t: State)
    requires Leads(s0, s) && Inv(s) && AllTop(s) && p < |s.producers| && s.producers[p].Pushed?
    requires s.mem.mutex.None? && forall q :: 0 <= q < |s.mem.qOwner| && q != s.producers[p].q ==> s.mem.qOwner[q].None?
    ensures Leads(s0, t) && Still(t) && t.cfg == s.cfg && Queued(t) == Queued(s)
    ensures t.producers == s.producers[p := Uncounted]
    ensures Same(s, t, Unlock) && SameStock(s, t)
  {
    t := Advance(s0, s, p, LoadMark);
    assert t.producers[p] == Swapping(s.producers[p].q, s.producers[p].len, s.mem.mark) && t.mem.mark == s.mem.mark;
    if t.producers[p].len > t.producers[p].prev {
      t := Swapped(s0, t, p);
    }
    t := Unlocked(s0, t, p);
  }

  lemma Swapped(s0: State, s: State, p: nat) returns (t: State)
    requires Leads(s0, s) && Inv(s) && AllTop(s) && SubmitEnabled(s, p, SwapMark)
    ensures Leads(s0, t) && Inv(t) && AllTop(t) && t.cfg == s.cfg && Queued(t) == Queued(s)
    ensures t.producers == s.producers[p := t.producers[p]] && SubmitEnabled(t, p, Unlock)
    ensures t.producers[p].q == s.producers[p].q && t.mem.qOwner == s.mem.qOwner && t.mem.mutex == s.mem.mutex
    ensures Same(s, t, Unlock) && SameStock(s, t)
  {
    t := Advance(s0, s, p, SwapMark);
  }

  lemma Unlocked(s0: State, s: State, p: nat) returns (t: State)
    requires Leads(s0, s) && Inv(s) && AllTop(s) && SubmitEnabled(s, p, Unlock) && s.mem.mutex.None?
    requires forall q :: 0 <= q < |s.mem.qOwner| && q != s.producers[p].q ==> s.mem.qOwner[q].None?
    ensures Leads(s0, t) && Still(t) && t.cfg == s.cfg && Queued(t) == Queued(s)
    ensures t.producers == s.producers[p := Uncounted] && Same(s, t, Unlock) && SameStock(s, t)
  {
    t := Advance(s0, s, p, Unlock);
  }

  /** From an admitted task to a pushed one that is not yet counted. */
  lemma PushThrough(s0: State, s: State, p: nat) returns (t: State)
    requires Leads(s0, s) && Still(s) && p < |s.producers| && s.producers[p].Admitted?
    requires Queued(s) + 1 < WORD
    ensures Leads(s0, t) && Still(t) && t.cfg == s.cfg && Queued(t) == Queued(s) + 1
    ensures t.producers == s.producers[p := Uncounted] && Same(s, t, Draw)
  {
    t := Advance(s0, s, p, Draw);
    t := PushDrawn(s0, t, p);
  }

  lemma PushDrawn(s0: State, s: State, p: nat) returns (t: State)
    requires Leads(s0, s) && Still(s) && p < |s.producers| && s.producers[p].Drawn?
    requires Queued(s) + 1 < WORD
    ensures Leads(s0, t) && Still(t) && t.cfg == s.cfg && Queued(t) == Queued(s) + 1
    ensures t.producers == s.producers[p := Uncounted] && Same(s, t, Unlock)
  {
    SumConstant(IsUndiscounted, s.workers, Top);
    t := Advance(s0, s, p, Push);
    t := MarkAndUnlock(s0, t, p);
  }

  /** At a standstill the counter is the number of queued tasks, less those pushed but not counted. */
  lemma CounterAtStandstill(s: State)
    requires Still(s)
    ensures Undiscounted(s) == 0
    ensures Uncounteds(s) == 0 ==> s.mem.counter == Queued(s)
  {
    SumConstant(IsUndiscounted, s.workers, Top);
  }

  /** The breaker lets one more pass. */
  ghost predicate Admits(s: State) { !s.cfg.breaker || s.cfg.maxQueue == 0 || Queued(s) < s.cfg.maxQueue }

  /** A whole submission by producer p while everything else stands still. */
  lemma SubmitOne(s0: State, s: State, p: nat) returns (t: State)
    requires Leads(s0, s) && Still(s) && AllIdle(s) && p < |s.producers|
    requires Queued(s) + 1 < WORD && Admits(s)
    ensures Leads(s0, t) && Still(t) && AllIdle(t) && t.cfg == s.cfg && Queued(t) == Queued(s) + 1
    ensures |t.producers| == |s.producers|
    ensures t.mem.running == s.mem.running && t.dtor == s.dtor && t.mem.promises == s.mem.promises + [Unset]
    ensures |t.hist.draws| == |s.hist.draws| + if s.cfg.mode.Fifo? then 0 else 1
  {
    SumConstant(IsUncounted, s.producers, Idle);
    t := AdmitOne(s0, s, p);
    t := PushThrough(s0, t, p);
    t := Announce(s0, t, p);
  }

  lemma Announce(s0: State, s: State, p: nat) returns (t: State)
    requires Leads(s0, s) && Still(s) && p < |s.producers| && s.producers[p].Uncounted?
    ensures Leads(s0, t) && Still(t) && t.cfg == s.cfg && Queued(t) == Queued(s)
    ensures t.producers == s.producers[p := Idle] && Same(s, t, Count)
  {
    t := Advance(s0, s, p, Count);
    t := Advance(s0, t, p, LockToSignal);
    t := Advance(s0, t, p, SignalAll);
  }

  lemma AdmitOne(s0: State, s: State, p: nat) returns (t: State)
    requires Leads(s0, s) && Still(s) && p < |s.producers| && s.producers[p].Idle?
    requires Uncounteds(s) == 0 && Admits(s)
    ensures Leads(s0, t) && Still(t) && t.cfg == s.cfg && Queued(t) == Queued(s)
    ensures |t.producers| == |s.producers| && t.producers[p].Admitted? && t.producers == s.producers[p := t.producers[p]]
    ensures Uncounteds(t) == 0 && Same(s, t, Begin(Future))
  {
    t := Advance(s0, s, p, Begin(Future));
    ProducerMoves(s, p, t.producers[p]);
    CounterAtStandstill(t);
    var u := t;
    t := Advance(s0, t, p, Check);
    ProducerMoves(u, p, t.producers[p]);
  }

  /** n submissions, one after the other. */
  lemma {:induction false} SubmitMany(s0: State, s: State, n: nat) returns (t: State)
    requires Leads(s0, s) && Still(s) && AllIdle(s) && s.producers != []
    requires Queued(s) + n < WORD && (s.cfg.breaker && 0 < s.cfg.maxQueue ==> Queued(s) + n <= s.cfg.maxQueue)
    ensures Leads(s0, t) && Still(t) && AllIdle(t) && t.cfg == s.cfg && Queued(t) == Queued(s) + n
    ensures t.mem.running == s.mem.running && t.dtor == s.dtor
    ensures |t.mem.promises| == |s.mem.promises| + n
    ensures AllUnset(s.mem.promises) ==> AllUnset(t.mem.promises)
    decreases n
  {
    t := s;
    if n > 0 {
      t := SubmitOne(s0, t, 0);
      hide Still, AllIdle;
      t := SubmitMany(s0, t, n - 1);
    }
  }

  ghost predicate AllUnset(promises: seq<Promise>) { forall i :: 0 <= i < |promises| ==> promises[i].Unset? }

  /** The first k producers have passed the breaker, the others are idle. */
  ghost predicate Passed(s: State, k: nat) {
    && k <= |s.producers|
    && forall p :: 0 <= p < |s.producers| ==> if p < k then s.producers[p].Admitted? else s.producers[p].Idle?
  }

  /** All producers load the same counter before any of them pushes. */
  lemma {:induction false} AdmitAll(s0: State, s: State, k: nat) returns (t: State)
    requires Leads(s0, s) && Still(s) && Passed(s, k) && Uncounteds(s) == 0 && Admits(s)
    ensures Leads(s0, t) && Still(t) && Passed(t, |s.producers|) && t.cfg == s.cfg && Queued(t) == Queued(s)
    decreases |s.producers| - k
  {
    t := s;
    if k < |s.producers| {
      t := AdmitOne(s0, t, k);
      t := AdmitAll(s0, t, k + 1);
    }
  }

  /** The first k producers have pushed, the others are about to. */
  ghost predicate HavePushed(s: State, k: nat) {
    && k <= |s.producers|
    && forall p :: 0 <= p < |s.producers| ==> if p < k then s.producers[p].Uncounted? else s.producers[p].Admitted?
  }

  lemma {:induction false} PushAll(s0: State, s: State, k: nat) returns (t: State)
    requires Leads(s0, s) && Still(s) && HavePushed(s, k) && Queued(s) + |s.producers| - k < WORD
    ensures Leads(s0, t) && Still(t) && t.cfg == s.cfg && Queued(t) == Queued(s) + |s.producers| - k
    decreases |s.producers| - k
  {
    t := s;
    if k < |s.producers| {
      t := PushThrough(s0, t, k);
      t := PushAll(s0, t, k + 1);
    }
  }

  /** With one place left, all producers pass and then push. */
  lemma FillTo(s0: State, s: State) returns (t: State)
    requires Leads(s0, s) && Still(s) && AllIdle(s) && Queued(s) < s.cfg.maxQueue && s.cfg.maxQueue + s.cfg.producers < WORD
    ensures Leads(s0, t) && t.cfg == s.cfg && Queued(t) == Queued(s) + s.cfg.producers
  {
    SumConstant(IsUncounted, s.producers, Idle);
    t := AdmitAll(s0, s, 0);
    t := PushAll(s0, t, 0);
  }

  /** The admission bound is attained by every configuration: maxQueue - 1 tasks are queued, then all
      producers check before any of them pushes.  With two producers the limit is already exceeded. */
  lemma AdmissionBoundAttained(cfg: Config)
    requires 0 < cfg.threads && 0 < cfg.producers && 0 < cfg.maxQueue && cfg.maxQueue + cfg.producers < WORD
    ensures exists s :: Reachable(s) && s.cfg == cfg && Queued(s) == cfg.maxQueue + cfg.producers - 1
  {
    var s0 := Init(cfg);
    InitInv(cfg);
    LeadsHere(s0);
    SumConstant(Length, s0.mem.queues, []);
    assert s0.mem.queues == Fill(cfg.threads, []) && Queued(s0) == 0 && s0.cfg == cfg;
    var s := SubmitMany(s0, s0, cfg.maxQueue - 1);
    hide Init, Reachable, Still;
    var t := FillTo(s0, s);
  }

  /** The queued tasks never exceed the limit exactly when there is at most one producer. */
  lemma LimitKeptIff(cfg: Config)
    requires 0 < cfg.threads && cfg.breaker && 0 < cfg.maxQueue && cfg.maxQueue + cfg.producers < WORD
    ensures (forall s :: Reachable(s) && s.cfg == cfg ==> Queued(s) <= cfg.maxQueue) <==> cfg.producers <= 1
  {
    hide Reachable, Queued;
    if cfg.producers > 1 {
      AdmissionBoundAttained(cfg);
    } else {
      forall s | Reachable(s) && s.cfg == cfg ensures Queued(s) <= cfg.maxQueue {
        AdmissionBound(s);
      }
    }
  }

  /** One more step of worker w. */
  lemma AdvanceWorker(s0: State, s: State, w: nat, act: WorkAct) returns (t: State)
    requires Leads(s0, s) && Inv(s) && WorkEnabled(s, w, act)
    ensures t == WorkStep(s, w, act) && Leads(s0, t) && Inv(t)
  {
    t := WorkStep(s, w, act);
    LeadsOneStep(s0, s, Work(w, act));
    StepKeepsInv(s, Work(w, act));
  }

  /** The first submission to a fresh processor, about to push to queue 0. */
  lemma FirstDraw(cfg: Config) returns (s: State)
    requires 0 < cfg.threads && 0 < cfg.producers
    ensures Leads(Init(cfg), s) && Inv(s) && s.cfg == cfg && s.workers == Init(cfg).workers && s.dtor.Alive?
    ensures s.producers == Init(cfg).producers[0 := s.producers[0]]
    ensures s.producers[0].Drawn? && s.producers[0].q == 0 && Queued(s) == 0
    ensures s.mem == Init(cfg).mem.(promises := s.mem.promises, rr := s.mem.rr)
  {
    var s0 := Init(cfg);
    InitInv(cfg);
    LeadsHere(s0);
    SumConstant(Length, s0.mem.queues, []);
    s := Advance(s0, s0, 0, Begin(Future));
    s := Advance(s0, s, 0, Check);
    assert s.producers[0].Admitted? && s.mem == s0.mem.(promises := s.mem.promises) && s.workers == s0.workers;
    s := DrawZero(s0, s);
  }

  lemma DrawZero(s0: State, s: State) returns (t: State)
    requires Leads(s0, s) && Inv(s) && SubmitEnabled(s, 0, Draw) && s.mem.rr == 0
    ensures |t.producers| == |s.producers| && t.producers == s.producers[0 := t.producers[0]] && t.producers[0].Drawn? && t.producers[0].q == 0
    ensures Leads(s0, t) && Inv(t) && t.cfg == s.cfg && t.workers == s.workers && t.dtor == s.dtor
    ensures Queued(t) == Queued(s) && t.mem == s.mem.(rr := t.mem.rr)
  {
    t := Advance(s0, s, 0, Draw);
  }

  /** The same submission just before it is counted. */
  lemma FirstPush(cfg: Config) returns (s: State)
    requires 0 < cfg.threads && 0 < cfg.producers
    ensures Leads(Init(cfg), s) && Inv(s) && AllTop(s) && s.cfg == cfg
    ensures |s.mem.queues[0]| == 1 && s.mem.qOwner[0].None? && s.mem.mutex.None?
    ensures s.mem.counter == 0 && s.mem.running && s.dtor.Alive? && Queued(s) == 1
  {
    var s0 := Init(cfg);
    s := FirstDraw(cfg);
    SumConstant(IsUndiscounted, s.workers, Top);
    s := Advance(s0, s, 0, Push);
    s := MarkAndUnlock(s0, s, 0);
  }

  /** The destructor stores running_ after worker 0 has entered its loop, so worker 0 goes for a task
      without looking at the counter. */
  lemma StopAtTheTest(s0: State, s: State) returns (t: State)
    requires Leads(s0, s) && Inv(s) && AllTop(s) && s.mem.mutex.None? && s.dtor.Alive? && s.mem.running
    ensures Leads(s0, t) && Inv(t) && t.cfg == s.cfg && t.workers[0].Owning?
    ensures t.mem.queues == s.mem.queues && t.mem.qOwner == s.mem.qOwner && t.mem.counter == s.mem.counter
  {
    t := AdvanceWorker(s0, s, 0, Loop);
    t := AdvanceWorker(s0, t, 0, LockToTest);
    LeadsOneStep(s0, t, Other(StopStore));
    StepKeepsInv(t, Other(StopStore));
    t := OtherStep(t, StopStore);
    t := AdvanceWorker(s0, t, 0, SeeRunning);
  }

  /** The counter does wrap below zero: a stopped worker pops and discounts a task that its producer
      has pushed but not yet counted. */
  lemma CounterCanWrap(cfg: Config)
    requires 0 < cfg.threads && 0 < cfg.producers
    ensures exists s :: Reachable(s) && s.cfg == cfg && Queued(s) == 0 && s.mem.counter == WORD - 1
  {
    var s0 := Init(cfg);
    var s := FirstPush(cfg);
    s := StopAtTheTest(s0, s);
    WorkMovesQueues(s, 0, PopOwn);
    var t := AdvanceWorker(s0, s, 0, PopOwn);
    WorkMovesQueues(t, 0, Discount);
    t := AdvanceWorker(s0, t, 0, Discount);
  }

  // ---------- a destroyed processor with a backlog ----------

  /** The first k workers have left, the others have not moved; nothing else has changed since the stop. */
  ghost predicate Left(s: State, t: State, k: nat) {
    && k <= |t.workers| && t.cfg == s.cfg && Queued(t) == Queued(s) && t.mem.promises == s.mem.promises
    && t.dtor.Signalled? && !t.mem.running
    && forall w :: 0 <= w < |t.workers| ==> if w < k then t.workers[w].Gone? else t.workers[w].Top?
  }

  lemma WorkerLeaves(s0: State, s: State, t: State, k: nat) returns (u: State)
    requires Leads(s0, t) && Inv(t) && Left(s, t, k) && k < |t.workers|
    ensures Leads(s0, u) && Inv(u) && Left(s, u, k + 1) && |u.workers| == |t.workers|
  {
    u := AdvanceWorker(s0, t, k, Loop);
    u := AdvanceWorker(s0, u, k, Leave);
  }

  lemma {:induction false} WorkersLeave(s0: State, s: State, t: State, k: nat) returns (u: State)
    requires Leads(s0, t) && Inv(t) && Left(s, t, k)
    ensures Leads(s0, u) && Inv(u) && Left(s, u, |u.workers|)
    decreases |t.workers| - k
  {
    u := t;
    if k < |t.workers| {
      u := WorkerLeaves(s0, s, t, k);
      u := WorkersLeave(s0, s, u, k + 1);
    }
  }

  /** The destructor runs while the workers are at the top of their loop. */
  lemma DestroyStill(s0: State, s: State) returns (t: State)
    requires Leads(s0, s) && Reachable(s0) && s0 == Init(s.cfg) && Still(s) && s.dtor.Alive?
    ensures Leads(s0, t) && t.cfg == s.cfg && t.dtor.Destroyed? && Queued(t) == Queued(s)
    ensures t.mem.promises == s.mem.promises
  {
    LeadsOneStep(s0, s, Other(StopStore));
    StepKeepsInv(s, Other(StopStore));
    t := OtherStep(s, StopStore);
    LeadsOneStep(s0, t, Other(StopSignal));
    StepKeepsInv(t, Other(StopSignal));
    t := OtherStep(t, StopSignal);
    t := WorkersLeave(s0, s, t, 0);
    t := FinishDestructor(s0, t);
  }

  lemma FinishDestructor(s0: State, s: State) returns (t: State)
    requires Leads(s0, s) && Reachable(s0) && s0 == Init(s.cfg) && Shape(s) && s.dtor.Signalled?
    requires forall w :: 0 <= w < |s.workers| ==> s.workers[w].Gone?
    ensures Leads(s0, t) && t.cfg == s.cfg && t.dtor.Destroyed? && Queued(t) == Queued(s)
    ensures t.mem.promises == s.mem.promises
  {
    PoolShutdown.ReachableStop(s);
    SumZero(StillIn, s.workers);
    LeadsOneStep(s0, s, Other(StopJoin));
    OtherKeepsShape(s, StopJoin);
    t := OtherStep(s, StopJoin);
    LeadsOneStep(s0, t, Other(StopFinal));
    t := OtherStep(t, StopFinal);
  }

  /** The shutdown drains nothing: every configuration has a run that ends with the processor destroyed and
      any number of tasks, up to the breaker's limit, still queued, all their promises unset. */
  lemma DestroyedWithBacklog(cfg: Config, n: nat)
    requires 0 < cfg.threads && 0 < cfg.producers && n < WORD
    requires cfg.breaker && 0 < cfg.maxQueue ==> n <= cfg.maxQueue
    ensures exists s :: Reachable(s) && s.cfg == cfg && s.dtor.Destroyed? && Queued(s) == n
                        && |s.mem.promises| == n && AllUnset(s.mem.promises)
  {
    var s0 := Init(cfg);
    InitInv(cfg);
    LeadsHere(s0);
    SumConstant(Length, s0.mem.queues, []);
    var s := SubmitMany(s0, s0, n);
    hide Still;
    s := DestroyStill(s0, s);
  }

  // ---------- any number of draws ----------

  /** The only queued task. */
  lemma OneQueued(s: State) returns (q: nat)
    requires Shape(s) && Queued(s) == 1
    ensures q < |s.mem.queues| && s.mem.queues[q] != []
  {
    SumZero(Length, s.mem.queues);
    q :| 0 <= q < |s.mem.queues| && Length(s.mem.queues[q]) != 0;
  }

  /** Worker q gets as far as a pop. */
  lemma WorkerEnters(s0: State, s: State, q: nat) returns (t: State)
    requires Leads(s0, s) && Still(s) && s.mem.running && s.mem.counter > 0 && q < |s.workers|
    ensures Leads(s0, t) && Inv(t) && t == s.(workers := s.workers[q := Owning])
  {
    t := AdvanceWorker(s0, s, q, Loop);
    t := AdvanceWorker(s0, t, q, LockToTest);
    t := AdvanceWorker(s0, t, q, SeeRunning);
    t := AdvanceWorker(s0, t, q, SeeCount);
  }

  ghost predicate Unmoved(s: State, t: State) {
    && t.cfg == s.cfg && t.producers == s.producers && t.mem.queues == s.mem.queues && t.mem.qOwner == s.mem.qOwner
    && t.mem.mutex == s.mem.mutex && t.mem.running == s.mem.running && t.hist.draws == s.hist.draws
  }

  /** What a worker does with its task touches nothing that matters here. */
  ghost predicate Serving(act: WorkAct) {
    act.Discount? || act.Tally? || act.Call? || act.Wrap? || act.Finish? || act.ReportDrops?
  }

  ghost predicate Follows(pc: WorkPc, act: WorkAct) {
    match act
    case Discount => pc.Discounted?
    case Tally => pc.Calling?
    case Call => pc.Wrapping?
    case Wrap => pc.Dropping? || pc.Executing?
    case Finish(_) => pc.Dropping?
    case _ => pc.Top?
  }

  lemma ServingIsQuiet(s: State, q: nat, act: WorkAct)
    requires Shape(s) && WorkEnabled(s, q, act) && Serving(act)
    ensures var t := WorkStep(s, q, act);
      Unmoved(s, t) && t.workers == s.workers[q := t.workers[q]] && Follows(t.workers[q], act)
  {
  }

  lemma AdvanceServing(s0: State, s: State, q: nat, act: WorkAct) returns (t: State)
    requires Leads(s0, s) && Inv(s) && WorkEnabled(s, q, act) && Serving(act)
    ensures Leads(s0, t) && Inv(t) && Unmoved(s, t)
    ensures t.workers == s.workers[q := t.workers[q]] && Follows(t.workers[q], act)
  {
    ServingIsQuiet(s, q, act);
    t := AdvanceWorker(s0, s, q, act);
  }

  /** It takes the task and is done with it. */
  lemma WorkerServes(s0: State, s: State, q: nat) returns (t: State)
    requires Leads(s0, s) && Inv(s) && q < |s.workers| && s.workers[q].Got?
    ensures Leads(s0, t) && Inv(t) && t.workers == s.workers[q := Top] && Unmoved(s, t)
  {
    hide Inv;
    t := AdvanceServing(s0, s, q, Discount);
    t := AdvanceServing(s0, t, q, Tally);
    t := AdvanceServing(s0, t, q, Call);
    t := AdvanceServing(s0, t, q, Wrap);
    if t.workers[q].Executing? {
      t := AdvanceServing(s0, t, q, Finish(true));
    }
    t := AdvanceServing(s0, t, q, ReportDrops);
  }

  /** One submission is served, and everything stands still again. */
  lemma ServeOne(s0: State, s: State) returns (t: State)
    requires Leads(s0, s) && Still(s) && AllIdle(s) && s.producers != [] && s.mem.running && Queued(s) == 0
    ensures Leads(s0, t) && Still(t) && AllIdle(t) && |t.producers| == |s.producers| && t.mem.running
    ensures t.cfg == s.cfg && Queued(t) == 0
    ensures |t.hist.draws| == |s.hist.draws| + if s.cfg.mode.Fifo? then 0 else 1
  {
    var u := SubmitOne(s0, s, 0);
    SumConstant(IsUncounted, u.producers, Idle);
    CounterAtStandstill(u);
    var q := OneQueued(u);
    var v := WorkerEnters(s0, u, q);
    WorkMovesQueues(v, q, PopOwn);
    WorkKeepsShape(v, q, PopOwn);
    t := AdvanceWorker(s0, v, q, PopOwn);
    assert t.workers[q := Top] == u.workers;
    t := WorkerServes(s0, t, q);
  }

  lemma {:induction false} ServeMany(s0: State, s: State, n: nat) returns (t: State)
    requires Leads(s0, s) && Still(s) && AllIdle(s) && s.producers != [] && s.mem.running && Queued(s) == 0
    requires !s.cfg.mode.Fifo?
    ensures Leads(s0, t) && t.cfg == s.cfg && |t.hist.draws| == |s.hist.draws| + n
    decreases n
  {
    t := s;
    if n > 0 {
      t := ServeOne(s0, t);
      hide Still, AllIdle;
      t := ServeMany(s0, t, n - 1);
    }
  }

  /** Every number of draws is reached by a run of submissions that are served one after the other. */
  lemma AnyNumberOfDraws(cfg: Config, n: nat) returns (s: State)
    requires 0 < cfg.threads && 0 < cfg.producers && !cfg.mode.Fifo?
    ensures Reachable(s) && s.cfg == cfg && |s.hist.draws| == n
  {
    var s0 := Init(cfg);
    InitInv(cfg);
    LeadsHere(s0);
    SumConstant(Length, s0.mem.queues, []);
    s := ServeMany(s0, s0, n);
  }
}
