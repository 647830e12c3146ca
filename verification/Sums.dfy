/** Optional values, and weighted sums over sequences.  The global invariants of the concurrent
    components are equations between such sums taken over all threads and all queues. */
module Sums {

  datatype Option<+T> = None | Some(value: T)

  /** The total weight of the elements of xs. */
  ghost function Sum<T>(weight: T -> nat, xs: seq<T>): nat {
    if xs == [] then 0 else weight(xs[0]) + Sum(weight, xs[1..])
  }

  /** Replacing one element changes the total by the difference of the two weights. */
  lemma {:induction false} SumUpdate<T>(weight: T -> nat, xs: seq<T>, i: nat, y: T)
    requires i < |xs|
    ensures Sum(weight, xs[i := y]) + weight(xs[i]) == Sum(weight, xs) + weight(y)
  {
    var ys := xs[i := y];
    if i == 0 {
      assert ys[1..] == xs[1..];
    } else {
      assert ys[1..] == xs[1..][i - 1 := y];
      SumUpdate(weight, xs[1..], i - 1, y);
    }
  }

  /** Every element weighs at most the total. */
  lemma {:induction false} SumElement<T>(weight: T -> nat, xs: seq<T>, i: nat)
    requires i < |xs|
    ensures weight(xs[i]) <= Sum(weight, xs)
  {
    if i > 0 {
      SumElement(weight, xs[1..], i - 1);
    }
  }

  /** Two different elements together weigh at most the total. */
  lemma {:induction false} SumTwoElements<T>(weight: T -> nat, xs: seq<T>, i: nat, j: nat)
    requires i < j < |xs|
    ensures weight(xs[i]) + weight(xs[j]) <= Sum(weight, xs)
  {
    if i == 0 {
      SumElement(weight, xs[1..], j - 1);
    } else {
      SumTwoElements(weight, xs[1..], i - 1, j - 1);
    }
  }

  /** A total is zero exactly when every weight is. */
  lemma {:induction false} SumZero<T>(weight: T -> nat, xs: seq<T>)
    ensures Sum(weight, xs) == 0 <==> forall i :: 0 <= i < |xs| ==> weight(xs[i]) == 0
  {
    if xs != [] {
      SumZero(weight, xs[1..]);
      assert forall i :: 0 < i < |xs| ==> xs[i] == xs[1..][i - 1];
      assert forall i :: 0 <= i < |xs| - 1 ==> xs[1..][i] == xs[i + 1];
    }
  }

  /** Elements that weigh at most one each: the total is at most their number. */
  lemma {:induction false} SumAtMostLength<T>(weight: T -> nat, xs: seq<T>)
    requires forall i :: 0 <= i < |xs| ==> weight(xs[i]) <= 1
    ensures Sum(weight, xs) <= |xs|
  {
    if xs != [] {
      assert forall i :: 0 <= i < |xs| - 1 ==> xs[1..][i] == xs[i + 1];
      SumAtMostLength(weight, xs[1..]);
    }
  }

  /** Totals compare like the weights they are made of. */
  lemma {:induction false} SumPointwise<S, T>(f: S -> nat, xs: seq<S>, g: T -> nat, ys: seq<T>)
    requires |xs| == |ys| && forall i :: 0 <= i < |xs| ==> f(xs[i]) <= g(ys[i])
    ensures Sum(f, xs) <= Sum(g, ys)
  {
    if xs != [] {
      assert forall i :: 0 <= i < |xs| - 1 ==> xs[1..][i] == xs[i + 1] && ys[1..][i] == ys[i + 1];
      SumPointwise(f, xs[1..], g, ys[1..]);
    }
  }

  /** Weights that never exceed one in sum, and vanish on one element, total less than the length. */
  lemma {:induction false} SumsLeaveOneOut<T>(f: T -> nat, g: T -> nat, xs: seq<T>, k: nat)
    requires k < |xs| && f(xs[k]) + g(xs[k]) == 0
    requires forall i :: 0 <= i < |xs| ==> f(xs[i]) + g(xs[i]) <= 1
    ensures Sum(f, xs) + Sum(g, xs) <= |xs| - 1
  {
    SumsAtMostLength(f, g, xs[1..]);
    if k > 0 {
      SumsLeaveOneOut(f, g, xs[1..], k - 1);
    }
  }

  lemma {:induction false} SumsAtMostLength<T>(f: T -> nat, g: T -> nat, xs: seq<T>)
    requires forall i :: 0 <= i < |xs| ==> f(xs[i]) + g(xs[i]) <= 1
    ensures Sum(f, xs) + Sum(g, xs) <= |xs|
  {
    if xs != [] {
      assert forall i :: 0 <= i < |xs| - 1 ==> xs[1..][i] == xs[i + 1];
      SumsAtMostLength(f, g, xs[1..]);
    }
  }

  /** A sequence built from one element repeated. */
  lemma {:induction false} SumConstant<T>(weight: T -> nat, xs: seq<T>, x: T)
    requires forall i :: 0 <= i < |xs| ==> xs[i] == x
    ensures Sum(weight, xs) == weight(x) * |xs|
  {
    if xs != [] {
      assert forall i :: 0 <= i < |xs| - 1 ==> xs[1..][i] == xs[i + 1];
      SumConstant(weight, xs[1..], x);
    }
  }

  /** Nothing but elements without weight. */
  lemma SumNothing<T>(weight: T -> nat, xs: seq<T>, x: T)
    requires weight(x) == 0 && forall i :: 0 <= i < |xs| ==> xs[i] == x
    ensures Sum(weight, xs) == 0
  {
    SumZero(weight, xs);
  }

  lemma {:induction false} SumAppend<T>(weight: T -> nat, xs: seq<T>, ys: seq<T>)
    ensures Sum(weight, xs + ys) == Sum(weight, xs) + Sum(weight, ys)
  {
    if xs == [] {
      assert xs + ys == ys;
    } else {
      assert (xs + ys)[1..] == xs[1..] + ys;
      SumAppend(weight, xs[1..], ys);
    }
  }

  lemma SumSnoc<T>(weight: T -> nat, xs: seq<T>, y: T)
    ensures Sum(weight, xs + [y]) == Sum(weight, xs) + weight(y)
  {
    SumAppend(weight, xs, [y]);
    assert Sum(weight, [y]) == weight(y) + Sum(weight, []);
  }

  lemma SumRemove<T>(weight: T -> nat, xs: seq<T>, k: nat)
    requires k < |xs|
    ensures Sum(weight, xs[..k] + xs[k + 1..]) + weight(xs[k]) == Sum(weight, xs)
  {
    SumAppend(weight, xs[..k], xs[k..]);
    SumAppend(weight, xs[..k], xs[k + 1..]);
    assert xs[..k] + xs[k..] == xs;
    assert xs[k..][1..] == xs[k + 1..];
  }
}
