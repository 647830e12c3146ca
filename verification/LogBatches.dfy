/** What the worker of the log adapter takes at once, and which messages are dropped for want of room. */
module LogBatches {
  import opened Sums
  import opened LogModel

  /** The worker's critical section takes the whole queue as its batch, or none if there is none. */
  lemma SwapTakesAll(s: State)
    requires WorkerEnabled(s, Test)
    ensures var t := WorkerStep(s, Test);
      && t.queue == []
      && (s.queue != [] ==> t.worker == Dispatching(s.queue))
      && (s.queue == [] ==> if s.running then t.worker.Asleep? else t.worker.Leaving?)
  {
  }

  lemma FinalSwapTakesAll(s: State)
    requires WorkerEnabled(s, FinalSwap)
    ensures var t := WorkerStep(s, FinalSwap); t.queue == [] && t.worker == Draining(s.queue)
  {
  }

  // ---------- the queue as seen from outside ----------

  /** The worker's critical section on a queue with messages, or its final one. */
  ghost predicate Swaps(s: State, a: Action) { a == Work(FinalSwap) || (a == Work(Test) && s.queue != []) }

  /** How many messages a run appends after the worker's last swap; n were appended before the run. */
  ghost function AppendedSinceSwap(s: State, acts: seq<Action>, t: State, n: nat): nat
    requires Runs(s, acts, t)
    decreases |acts|
  {
    if acts == [] then n
    else
      var u := Step(s, acts[0]);
      AppendedSinceSwap(u, acts[1..], t, if Swaps(s, acts[0]) then 0 else n + Appends(s, u))
  }

  ghost function Appends(s: State, t: State): nat {
    if |s.hist.appended| <= |t.hist.appended| then |t.hist.appended| - |s.hist.appended| else 0
  }

  lemma ProducerFillsQueue(s: State, p: nat, act: ProducerAct)
    requires ProducerEnabled(s, p, act)
    ensures var t := ProducerStep(s, p, act);
      |s.hist.appended| <= |t.hist.appended| && |t.queue| == |s.queue| + |t.hist.appended| - |s.hist.appended|
  {
  }

  lemma WorkerEmptiesQueue(s: State, act: WorkerAct)
    requires WorkerEnabled(s, act)
    ensures var t := WorkerStep(s, act);
      t.hist.appended == s.hist.appended && t.queue == if Swaps(s, Work(act)) then [] else s.queue
  {
  }

  lemma {:induction false} QueueIsSinceSwap(s: State, acts: seq<Action>, t: State)
    requires Runs(s, acts, t)
    ensures |t.queue| == AppendedSinceSwap(s, acts, t, |s.queue|)
    decreases |acts|
  {
    if acts != [] {
      match acts[0] {
        case Produce(p, act) => ProducerFillsQueue(s, p, act);
        case Work(act) => WorkerEmptiesQueue(s, act);
        case Other(_) =>
      }
      QueueIsSinceSwap(Step(s, acts[0]), acts[1..], t);
    }
  }

  /** A look at the queue size, the first one or the one under the lock, drops the message exactly when
      `limit` messages have been appended since the worker's last swap, or since the start; otherwise the
      first look lets it pass and the second appends it at the end. */
  lemma DroppedIff(limit: nat, producers: nat, acts: seq<Action>, s: State, p: nat, act: ProducerAct)
    requires Runs(Init(limit, producers), acts, s) && ProducerEnabled(s, p, act) && (act.ReadSize? || act.Recheck?)
    ensures var t := ProducerStep(s, p, act); var msg := s.producers[p].msg;
      if AppendedSinceSwap(Init(limit, producers), acts, s, 0) >= limit
      then && t.hist.dropLog == s.hist.dropLog + [msg] && t.dropped == s.dropped + 1 && t.queue == s.queue
           && |t.producers| == |s.producers| && t.producers[p].Idle?
      else && t.hist.dropLog == s.hist.dropLog && t.dropped == s.dropped && |t.producers| == |s.producers|
           && if act.ReadSize? then t.producers[p] == Passed(msg) && t.queue == s.queue
              else t.queue == s.queue + [msg] && HoldsLock(t.producers[p])
  {
    QueueIsSinceSwap(Init(limit, producers), acts, s);
    LimitStays(Init(limit, producers), acts, s);
  }

  lemma {:induction false} LimitStays(s: State, acts: seq<Action>, t: State)
    requires Runs(s, acts, t)
    ensures t.limit == s.limit
    decreases |acts|
  {
    if acts != [] {
      StepKeepsLimit(s, acts[0]);
      LimitStays(Step(s, acts[0]), acts[1..], t);
    }
  }

  lemma StepKeepsLimit(s: State, a: Action)
    requires Enabled(s, a)
    ensures Step(s, a).limit == s.limit
  {
  }

  /** The messages a run logs, in order. */
  ghost function MessagesLogged(acts: seq<Action>): seq<Message> {
    if acts == [] then []
    else (if acts[0].Produce? && acts[0].pa.Begin? then [acts[0].pa.msg] else []) + MessagesLogged(acts[1..])
  }

  lemma StepLogs(s: State, a: Action)
    requires Enabled(s, a)
    ensures Step(s, a).hist.begun == s.hist.begun + if a.Produce? && a.pa.Begin? then [a.pa.msg] else []
  {
  }

  lemma {:induction false} RunsLog(s: State, acts: seq<Action>, t: State)
    requires Runs(s, acts, t)
    ensures t.hist.begun == s.hist.begun + MessagesLogged(acts)
    decreases |acts|
  {
    if acts != [] {
      StepLogs(s, acts[0]);
      RunsLog(Step(s, acts[0]), acts[1..], t);
    }
  }

  /** No message is lost or duplicated, counted against the calls themselves: as often as a run logs a message
      it has been dropped, is with its producer, has been dispatched, or waits for the worker. */
  lemma EveryLoggedMessage(limit: nat, producers: nat, acts: seq<Action>, t: State, m: Message)
    requires Runs(Init(limit, producers), acts, t)
    ensures Sum(Equals(m), MessagesLogged(acts))
            == Sum(Equals(m), t.hist.dropLog) + Sum(InHand(m), t.producers)
               + Sum(Equals(m), t.hist.dispatched) + Sum(Equals(m), Rest(t.worker)) + Sum(Equals(m), t.queue)
  {
    RunsLog(Init(limit, producers), acts, t);
    assert [] + MessagesLogged(acts) == MessagesLogged(acts);
    LimitStays(Init(limit, producers), acts, t);
    ProducersStay(Init(limit, producers), acts, t);
    LogConservation(t, m);
  }

  lemma {:induction false} ProducersStay(s: State, acts: seq<Action>, t: State)
    requires Runs(s, acts, t)
    ensures |t.producers| == |s.producers|
    decreases |acts|
  {
    if acts != [] {
      ProducersStay(Step(s, acts[0]), acts[1..], t);
    }
  }

  // ---------- the end of a batch and of the adapter ----------

  /** After a batch, every drop so far has been handed to a reader of the drop counter. */
  lemma DropsHandedOver(s: State, act: WorkerAct)
    requires Reachable(s) && WorkerEnabled(s, act) && (act.EndBatch? || act.EndDrain?)
    ensures var t := WorkerStep(s, act); t.dropped == 0 && t.hist.reported == |t.hist.dropLog|
  {
    ReachableInv(s);
  }

  /** The destructor joins the worker exactly if it has stopped by then, and detaches it otherwise; a joined
      worker is done with everything. */
  lemma JoinsIffStopped(s: State, act: OtherAct)
    requires Reachable(s) && OtherEnabled(s, act) && (act.SeeStopped? || act.TimeOut?)
    ensures var t := OtherStep(s, act);
      && (t.dtor.Joined? <==> s.stopped) && (t.dtor.Detached? <==> !s.stopped)
      && (t.dtor.Joined? ==> t.worker.Stopped?)
  {
    ReachableInv(s);
  }

  lemma JoinedMeansStopped(s: State)
    requires Reachable(s) && s.dtor.Joined?
    ensures s.stopped && s.worker.Stopped? && Rest(s.worker) == []
  {
    ReachableInv(s);
  }
}
