/** How evenly the shared index of the round-robin and work-stealing modes spreads the tasks. */
module PoolRoundRobin {
  import opened Sums
  import opened PoolModel
  import PoolWitness

  // ---------- the draws of a run ----------

  ghost function IsDrawn(pc: SubmitPc): nat { if pc.Drawn? then 1 else 0 }

  /** The k-th draw takes the wrapped index modulo the number of threads; and only tasks on their way
      to a push have drawn, so a dropped submission consumes no index. */
  ghost predicate DrawInv(s: State) {
    && Shape(s)
    && (!s.cfg.mode.Fifo? ==>
          && s.mem.rr == |s.hist.draws| % WORD
          && (forall k :: 0 <= k < |s.hist.draws| ==> s.hist.draws[k] == Index(s.cfg.threads, k))
          && |s.hist.draws| == |s.hist.pushLog| + Sum(IsDrawn, s.producers))
    && (s.cfg.mode.Fifo? ==> s.mem.rr == 0 && s.hist.draws == [])
  }

  /** The queue chosen by the k-th draw; size_t wraps before the remainder is taken. */
  ghost function Index(n: nat, k: nat): nat
    requires 0 < n
  {
    (k % WORD) % n
  }

  lemma NextIndex(k: nat)
    ensures (k % WORD + 1) % WORD == (k + 1) % WORD
  {
  }

  lemma DrawKeepsDraws(s: State, p: nat)
    requires DrawInv(s) && SubmitEnabled(s, p, Draw)
    ensures DrawInv(DrawnAt(s, p))
  {
    var t := DrawnAt(s, p);
    SubmitKeepsShape(s, p, Draw);
    SumUpdate(IsDrawn, s.producers, p, t.producers[p]);
    if !s.cfg.mode.Fifo? {
      assert t.hist.draws == s.hist.draws + [Index(s.cfg.threads, |s.hist.draws|)];
      hide Index;
      NextIndex(|s.hist.draws|);
    }
  }

  lemma SubmitKeepsDraws(s: State, p: nat, act: SubmitAct)
    requires DrawInv(s) && SubmitEnabled(s, p, act)
    ensures DrawInv(SubmitStep(s, p, act))
  {
    if act.Draw? {
      DrawKeepsDraws(s, p);
    } else {
      SubmitKeepsShape(s, p, act);
      var t := SubmitStep(s, p, act);
      SumUpdate(IsDrawn, s.producers, p, t.producers[p]);
      assert t.producers == s.producers[p := t.producers[p]];
      assert t.hist.draws == s.hist.draws && t.mem.rr == s.mem.rr;
    }
  }

  lemma WorkKeepsDraws(s: State, w: nat, act: WorkAct)
    requires DrawInv(s) && WorkEnabled(s, w, act)
    ensures DrawInv(WorkStep(s, w, act))
  {
    WorkKeepsShape(s, w, act);
    var t := WorkStep(s, w, act);
    assert t.producers == s.producers && t.hist.draws == s.hist.draws && t.mem.rr == s.mem.rr;
  }

  lemma {:induction false} RunsKeepDraws(s: State, acts: seq<Action>, t: State)
    requires DrawInv(s) && Runs(s, acts, t)
    ensures DrawInv(t)
    decreases |acts|
  {
    if acts != [] {
      match acts[0] {
        case Submit(p, act) => SubmitKeepsDraws(s, p, act);
        case Work(w, act) => WorkKeepsDraws(s, w, act);
        case Other(act) => OtherKeepsShape(s, act);
      }
      RunsKeepDraws(Step(s, acts[0]), acts[1..], t);
    }
  }

  lemma ReachableDraws(s: State)
    requires Reachable(s)
    ensures DrawInv(s)
  {
    var i := Init(s.cfg);
    SumConstant(IsDrawn, i.producers, Idle);
    var acts :| Runs(i, acts, s);
    RunsKeepDraws(i, acts, s);
  }

  /** In FIFO mode the shared index is never touched. */
  lemma FifoDrawsNothing(s: State)
    requires Reachable(s) && s.cfg.mode.Fifo?
    ensures s.mem.rr == 0 && s.hist.draws == []
  {
    ReachableDraws(s);
  }

  // ---------- how often each queue is chosen ----------

  /** How many of the first k draws choose queue i. */
  ghost function Chosen(n: nat, k: nat, i: nat): nat
    requires 0 < n
  {
    if k == 0 then 0 else Chosen(n, k - 1, i) + if Index(n, k - 1) == i then 1 else 0
  }

  ghost function IsQueue(i: nat): nat -> nat { (q: nat) => if q == i then 1 else 0 }

  lemma {:induction false} DrawsAreChosen(n: nat, draws: seq<nat>, i: nat)
    requires 0 < n && forall k :: 0 <= k < |draws| ==> draws[k] == Index(n, k)
    ensures Sum(IsQueue(i), draws) == Chosen(n, |draws|, i)
  {
    if draws != [] {
      var k := |draws| - 1;
      DrawsAreChosen(n, draws[..k], i);
      SumSnoc(IsQueue(i), draws[..k], draws[k]);
      assert draws[..k] + [draws[k]] == draws;
    }
  }

  lemma IndexBeforeWrap(n: nat, k: nat)
    requires 0 < n && k < WORD
    ensures Index(n, k) == k % n && Index(n, WORD + k) == Index(n, k)
  {
  }

  /** Queue i's part of k draws dealt in turn. */
  ghost function Share(n: nat, k: nat, i: nat): nat
    requires i < n
  {
    (k - i + n - 1) / n
  }

  lemma QuotientOf(n: nat, x: int, q: int, r: int)
    requires 0 <= r < n && x == n * q + r
    ensures x / n == q
  {
    Multiples(n, x / n, q);
    Multiples(n, q, x / n);
  }

  lemma Distribute(n: int, x: int, y: int)
    ensures n * (x + y) == n * x + n * y
  {
  }

  lemma Multiples(n: nat, a: int, b: int)
    ensures a < b ==> n * a + n <= n * b
  {
    if a < b {
      Distribute(n, a, b - a);
      Distribute(n, 1, b - a - 1);
      assert n * (b - a - 1) >= 0;
    }
  }

  lemma ShareStep(n: nat, k: nat, i: nat)
    requires i < n
    ensures Share(n, k + 1, i) == Share(n, k, i) + if k % n == i then 1 else 0
  {
    var q, r := k / n, k % n;
    assert k == n * q + r;
    assert n * (q + 1) == n * q + n;
    QuotientOf(n, k - i + n - 1, if r <= i then q else q + 1, if r <= i then r - i + n - 1 else r - i - 1);
    QuotientOf(n, k + 1 - i + n - 1, if r < i then q else q + 1, if r < i then r - i + n else r - i);
  }

  /** Before the index wraps, queue i has had exactly floor((k - i + n - 1) / n) of k draws. */
  lemma {:induction false} ChosenIsShare(n: nat, k: nat, i: nat)
    requires i < n && k <= WORD
    ensures Chosen(n, k, i) == Share(n, k, i)
  {
    hide Index, Share;
    if k == 0 {
      ShareOfNone(n, i);
    } else {
      ChosenIsShare(n, k - 1, i);
      IndexBeforeWrap(n, k - 1);
      ShareStep(n, k - 1, i);
    }
  }

  lemma ShareOfNone(n: nat, i: nat)
    requires i < n
    ensures Share(n, 0, i) == 0
  {
    QuotientOf(n, n - 1 - i, 0, n - 1 - i);
  }

  lemma LessThanTwoApart(n: nat, x: int, y: int, a: int, b: int)
    requires n * a <= x < y + n && y < n * b + n
    ensures a <= b + 1
  {
    Multiples(n, b + 1, a);
    Distribute(n, b, 1);
  }

  lemma SharesDifferByOne(n: nat, k: nat, i: nat, j: nat)
    requires i < n && j < n
    ensures Share(n, k, i) <= Share(n, k, j) + 1
  {
    var x, y := k - i + n - 1, k - j + n - 1;
    assert x == n * (x / n) + x % n && y == n * (y / n) + y % n;
    LessThanTwoApart(n, x, y, x / n, y / n);
  }

  /** A whole turn of the index adds a whole turn's shares. */
  lemma {:induction false} Turn(n: nat, r: nat, i: nat)
    requires i < n && r <= WORD
    ensures Chosen(n, WORD + r, i) == Chosen(n, WORD, i) + Chosen(n, r, i)
  {
    hide Index;
    if r > 0 {
      Turn(n, r - 1, i);
      IndexBeforeWrap(n, r - 1);
      assert WORD + r - 1 == WORD + (r - 1);
    }
  }

  /** When the number of threads divides 2^64 the wrap goes unnoticed. */
  lemma IndexThroughWrap(n: nat, k: nat)
    requires 0 < n && WORD % n == 0
    ensures Index(n, k) == k % n
  {
    var turns, rest := k / WORD, k % WORD;
    var c, x, y := WORD / n, rest / n, rest % n;
    assert WORD == n * c;
    assert rest == n * x + y;
    assert k == n * (c * turns + x) + y by {
      assert k == WORD * turns + rest;
      assert (n * c) * turns == n * (c * turns);
      assert n * (c * turns + x) == n * (c * turns) + n * x;
    }
    QuotientOf(n, k, c * turns + x, y);
  }

  lemma {:induction false} ChosenIsShareAlways(n: nat, k: nat, i: nat)
    requires i < n && WORD % n == 0
    ensures Chosen(n, k, i) == Share(n, k, i)
  {
    hide Index, Share;
    if k == 0 {
      ShareOfNone(n, i);
    } else {
      ChosenIsShareAlways(n, k - 1, i);
      IndexThroughWrap(n, k - 1);
      ShareStep(n, k - 1, i);
    }
  }

  /** Any two queues were chosen equally often, up to one. */
  ghost predicate Balanced(n: nat, k: nat) {
    forall i, j :: 0 <= i < n && 0 <= j < n ==> Chosen(n, k, i) <= Chosen(n, k, j) + 1
  }

  lemma FirstAndLastShare(n: nat)
    requires 0 < n && WORD % n != 0
    ensures Share(n, WORD, 0) == Share(n, WORD, n - 1) + 1
  {
    var q, r := WORD / n, WORD % n;
    assert WORD == n * q + r;
    assert n * (q + 1) == n * q + n;
    QuotientOf(n, WORD + n - 1, q + 1, r - 1);
    QuotientOf(n, WORD, q, r);
  }

  /** Two turns of the index favour queue 0 over the last queue by two, unless the number of threads
      divides 2^64. */
  lemma UnbalancedAfterTwoTurns(n: nat)
    requires 0 < n && WORD % n != 0
    ensures !Balanced(n, WORD + WORD)
  {
    Turn(n, WORD, 0);
    Turn(n, WORD, n - 1);
    ChosenIsShare(n, WORD, 0);
    ChosenIsShare(n, WORD, n - 1);
    FirstAndLastShare(n);
  }

  /** The wrapped index is fair for ever exactly when the number of threads divides 2^64. */
  lemma IndexBalancedIff(n: nat)
    requires 0 < n
    ensures (forall k :: Balanced(n, k)) <==> WORD % n == 0
  {
    if WORD % n == 0 {
      forall k, i, j | 0 <= i < n && 0 <= j < n
        ensures Chosen(n, k, i) <= Chosen(n, k, j) + 1
      {
        ChosenIsShareAlways(n, k, i);
        ChosenIsShareAlways(n, k, j);
        SharesDifferByOne(n, k, i, j);
      }
    } else {
      UnbalancedAfterTwoTurns(n);
    }
  }

  /** Any two queues of the processor have been drawn equally often, up to one. */
  ghost predicate EvenlyDealt(s: State) {
    forall i, j :: 0 <= i < s.cfg.threads && 0 <= j < s.cfg.threads ==>
      Sum(IsQueue(i), s.hist.draws) <= Sum(IsQueue(j), s.hist.draws) + 1
  }

  lemma EvenlyDealtIff(s: State)
    requires Reachable(s) && !s.cfg.mode.Fifo?
    ensures EvenlyDealt(s) <==> Balanced(s.cfg.threads, |s.hist.draws|)
  {
    ReachableDraws(s);
    var n, k := s.cfg.threads, |s.hist.draws|;
    forall i: nat ensures Sum(IsQueue(i), s.hist.draws) == Chosen(n, k, i) {
      DrawsAreChosen(n, s.hist.draws, i);
    }
  }

  /** The load of a configuration is even in every reachable state exactly when the number of threads
      divides 2^64. */
  lemma BalancedForeverIff(cfg: Config)
    requires 0 < cfg.threads && 0 < cfg.producers && !cfg.mode.Fifo?
    ensures (forall s :: Reachable(s) && s.cfg == cfg ==> EvenlyDealt(s)) <==> WORD % cfg.threads == 0
  {
    hide EvenlyDealt, Balanced, Reachable;
    IndexBalancedIff(cfg.threads);
    forall s | Reachable(s) && s.cfg == cfg ensures EvenlyDealt(s) <==> Balanced(cfg.threads, |s.hist.draws|) {
      EvenlyDealtIff(s);
    }
    if WORD % cfg.threads != 0 {
      UnbalancedAfterTwoTurns(cfg.threads);
      var s := PoolWitness.AnyNumberOfDraws(cfg, WORD + WORD);
    }
  }

  /** Round-robin balance of a processor: until the index wraps, queue i has received exactly its
      share of the draws, hence any two queues the same number up to one. */
  lemma EvenDistribution(s: State, i: nat, j: nat)
    requires Reachable(s) && !s.cfg.mode.Fifo? && i < s.cfg.threads && j < s.cfg.threads
    requires |s.hist.draws| <= WORD
    ensures Sum(IsQueue(i), s.hist.draws) == Share(s.cfg.threads, |s.hist.draws|, i)
    ensures Sum(IsQueue(i), s.hist.draws) <= Sum(IsQueue(j), s.hist.draws) + 1
    ensures |s.hist.draws| == |s.hist.pushLog| + Sum(IsDrawn, s.producers)
  {
    ReachableDraws(s);
    var n, k := s.cfg.threads, |s.hist.draws|;
    DrawsAreChosen(n, s.hist.draws, i);
    DrawsAreChosen(n, s.hist.draws, j);
    ChosenIsShare(n, k, i);
    ChosenIsShare(n, k, j);
    SharesDifferByOne(n, k, i, j);
  }
}
