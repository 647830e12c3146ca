/** Ownership of allocations by raw buffers: any number of buffers, made, adopted, moved, reset and
    destroyed in any order. */
module OwnershipModel {
  import opened Sums

  /** The three members of a buffer.  Allocations are named by their position in the heap's log and
      deleter functions by numbers; None is the null pointer. */
  datatype Fields = Fields(data: Option<nat>, size: nat, deleter: Option<nat>)

  const Empty: Fields := Fields(None, 0, None)

  /** A place for a buffer; not live before construction and after destruction. */
  datatype Place = Place(live: bool, fields: Fields)

  /** A call of a deleter. */
  datatype Deletion = Deletion(p: nat, size: nat, deleter: nat)

  /** The size and deleter a buffer was constructed with. */
  datatype Terms = Terms(size: nat, deleter: nat)

  /** `heap` holds the size asked of the allocator for each allocation; `taken` the terms on which an
      allocation was last handed to a buffer. */
  datatype State = State(bufs: seq<Place>, heap: seq<nat>, taken: map<nat, Terms>, deleted: seq<Deletion>)

  datatype Action =
    | Default
    | Make(size: nat, allocator: bool, memory: bool, deleter: Option<nat>)
    | Allocate(size: nat)
    | Adopt(data: Option<nat>, size: nat, deleter: Option<nat>)
    | MoveConstruct(b: nat)
    | MoveAssign(a: nat, b: nat)
    | Reset(b: nat)
    | Destroy(b: nat)

  ghost function Init(): State { State([], [], map[], []) }

  ghost predicate Live(s: State, b: nat) { b < |s.bufs| && s.bufs[b].live }

  /** A live buffer may be used; a pointer handed to the constructor comes from an allocator. */
  ghost predicate Enabled(s: State, a: Action) {
    match a
    case Adopt(data, _, _) => data.Some? ==> data.value < |s.heap|
    case MoveConstruct(b) => Live(s, b)
    case MoveAssign(x, b) => Live(s, x) && Live(s, b)
    case Reset(b) => Live(s, b)
    case Destroy(b) => Live(s, b)
    case _ => true
  }

  /** The constructor throws on a null pointer, a zero size or a null deleter. */
  predicate Refused(data: Option<nat>, size: nat, deleter: Option<nat>) {
    data.None? || size == 0 || deleter.None?
  }

  /** The deleter call made when a buffer lets go of what it holds. */
  ghost function Release(f: Fields): seq<Deletion> {
    if f.data.Some? && f.deleter.Some? then [Deletion(f.data.value, f.size, f.deleter.value)] else []
  }

  ghost function Put(s: State, b: nat, f: Fields): State
    requires b < |s.bufs|
  {
    s.(bufs := s.bufs[b := s.bufs[b].(fields := f)])
  }

  ghost function Construct(s: State, f: Fields): State { s.(bufs := s.bufs + [Place(true, f)]) }

  ghost function Adopted(s: State, data: Option<nat>, size: nat, deleter: Option<nat>): State {
    if Refused(data, size, deleter) then s
    else
      Construct(s, Fields(data, size, deleter))
      .(taken := s.taken[data.value := Terms(size, deleter.value)])
  }

  ghost function Cleared(s: State, b: nat): State
    requires b < |s.bufs|
  {
    Put(s, b, Empty).(deleted := s.deleted + Release(s.bufs[b].fields))
  }

  ghost function Step(s: State, a: Action): State
    requires Enabled(s, a)
  {
    match a
    case Default => Construct(s, Empty)
    case Make(size, allocator, memory, deleter) =>
      if !allocator || deleter.None? || !memory then s
      else Adopted(s.(heap := s.heap + [size]), Some(|s.heap|), size, deleter)
    case Allocate(size) => s.(heap := s.heap + [size])
    case Adopt(data, size, deleter) => Adopted(s, data, size, deleter)
    case MoveConstruct(b) => Put(Construct(s, s.bufs[b].fields), b, Empty)
    case MoveAssign(x, b) =>
      if x == b then s
      else
        var t := Cleared(s, x);
        Put(Put(t, x, t.bufs[b].fields), b, Empty)
    case Reset(b) => Cleared(s, b)
    case Destroy(b) =>
      var t := Cleared(s, b);
      t.(bufs := t.bufs[b := Place(false, Empty)])
  }

  ghost predicate Runs(s: State, acts: seq<Action>, t: State)
    decreases |acts|
  {
    if acts == [] then s == t else Enabled(s, acts[0]) && Runs(Step(s, acts[0]), acts[1..], t)
  }

  // ---------- owners and deletions ----------

  ghost function OwnsW(p: nat): Place -> nat {
    (x: Place) => if x.live && x.fields.data == Some(p) then 1 else 0
  }

  ghost function DeletesW(p: nat): Deletion -> nat { (d: Deletion) => if d.p == p then 1 else 0 }

  ghost function Owners(s: State, p: nat): nat { Sum(OwnsW(p), s.bufs) }

  ghost function Deletions(s: State, p: nat): nat { Sum(DeletesW(p), s.deleted) }

  /** Nobody holds p and nobody has deleted it. */
  ghost predicate Loose(s: State, p: nat) { Owners(s, p) == 0 && Deletions(s, p) == 0 }

  /** Every allocation a buffer ever took is owned by exactly one live buffer or was deleted exactly
      once, and no other allocation has an owner or was deleted. */
  ghost predicate Linear(s: State) {
    forall p :: Owners(s, p) + Deletions(s, p) == if p in s.taken then 1 else 0
  }

  ghost predicate Whole(taken: map<nat, Terms>, f: Fields) {
    f == Empty
    || (&& f.data.Some? && f.data.value in taken && f.size > 0
        && f.deleter == Some(taken[f.data.value].deleter) && f.size == taken[f.data.value].size)
  }

  /** A live buffer is empty, or holds an allocation on the terms it was taken on; deletions were made
      on those terms too. */
  ghost predicate OnTerms(s: State) {
    && (forall b :: 0 <= b < |s.bufs| ==> Whole(s.taken, s.bufs[b].fields))
    && (forall i :: 0 <= i < |s.deleted| ==>
          var d := s.deleted[i];
          d.p in s.taken && s.taken[d.p] == Terms(d.size, d.deleter))
    && (forall b :: 0 <= b < |s.bufs| && !s.bufs[b].live ==> s.bufs[b].fields == Empty)
    && (forall p :: p in s.taken ==> p < |s.heap|)
  }

  /** What the caller of the constructor must see to: the pointer is nobody else's. */
  ghost predicate FairAction(s: State, a: Action) {
    a.Adopt? && !Refused(a.data, a.size, a.deleter) ==> Loose(s, a.data.value)
  }

  ghost predicate Fair(s: State, acts: seq<Action>)
    decreases |acts|
  {
    acts == []
    || (Enabled(s, acts[0]) && FairAction(s, acts[0]) && Fair(Step(s, acts[0]), acts[1..]))
  }

  /** Ownership is linear in every state of the run. */
  ghost predicate LinearThroughout(s: State, acts: seq<Action>)
    decreases |acts|
  {
    Linear(s) && (acts == [] || (Enabled(s, acts[0]) && LinearThroughout(Step(s, acts[0]), acts[1..])))
  }

  ghost predicate Reachable(s: State) { exists acts :: Fair(Init(), acts) && Runs(Init(), acts, s) }

  // ---------- one step ----------

  lemma PutMoves(s: State, b: nat, f: Fields, p: nat)
    requires Live(s, b)
    ensures Owners(Put(s, b, f), p) + OwnsW(p)(s.bufs[b]) == Owners(s, p) + OwnsW(p)(Place(true, f))
  {
    SumUpdate(OwnsW(p), s.bufs, b, Place(true, f));
  }

  lemma ConstructAdds(s: State, f: Fields, p: nat)
    ensures Owners(Construct(s, f), p) == Owners(s, p) + OwnsW(p)(Place(true, f))
  {
    SumSnoc(OwnsW(p), s.bufs, Place(true, f));
  }

  /** Letting go turns one owner into one deletion. */
  lemma ClearedConserves(s: State, b: nat, p: nat)
    requires Live(s, b) && OnTerms(s)
    ensures Owners(Cleared(s, b), p) + Deletions(Cleared(s, b), p) == Owners(s, p) + Deletions(s, p)
  {
    var f := s.bufs[b].fields;
    PutMoves(s, b, Empty, p);
    SumAppend(DeletesW(p), s.deleted, Release(f));
    if f != Empty {
      assert Sum(DeletesW(p), Release(f)) == DeletesW(p)(Release(f)[0]) + Sum(DeletesW(p), []);
    }
  }

  lemma MovesConserve(s: State, a: Action, p: nat)
    requires OnTerms(s) && Enabled(s, a) && !a.Make? && !a.Adopt?
    ensures Owners(Step(s, a), p) + Deletions(Step(s, a), p) == Owners(s, p) + Deletions(s, p)
  {
    match a
    case Default => ConstructAdds(s, Empty, p);
    case Allocate(_) =>
    case MoveConstruct(b) =>
      var t := Construct(s, s.bufs[b].fields);
      ConstructAdds(s, s.bufs[b].fields, p);
      PutMoves(t, b, Empty, p);
    case MoveAssign(x, b) =>
      if x != b {
        var t := Cleared(s, x);
        ClearedConserves(s, x, p);
        PutMoves(t, x, t.bufs[b].fields, p);
        PutMoves(Put(t, x, t.bufs[b].fields), b, Empty, p);
      }
    case Reset(b) => ClearedConserves(s, b, p);
    case Destroy(b) =>
      ClearedConserves(s, b, p);
      SumUpdate(OwnsW(p), Cleared(s, b).bufs, b, Place(false, Empty));
  }

  lemma AdoptedAdds(s: State, data: Option<nat>, size: nat, deleter: Option<nat>, p: nat)
    ensures var t := Adopted(s, data, size, deleter);
            Owners(t, p) + Deletions(t, p)
            == Owners(s, p) + Deletions(s, p)
               + if !Refused(data, size, deleter) && data == Some(p) then 1 else 0
  {
    ConstructAdds(s, Fields(data, size, deleter), p);
  }

  lemma AdoptedKeepsTerms(s: State, data: Option<nat>, size: nat, deleter: Option<nat>)
    requires OnTerms(s) && Linear(s)
    requires !Refused(data, size, deleter) ==> data.value < |s.heap| && Loose(s, data.value)
    ensures OnTerms(Adopted(s, data, size, deleter))
  {
    if !Refused(data, size, deleter) {
      var p := data.value;
      assert Owners(s, p) + Deletions(s, p) == 0;
      assert p !in s.taken;
    }
  }

  lemma PutKeepsTerms(s: State, b: nat, f: Fields)
    requires OnTerms(s) && Live(s, b) && Whole(s.taken, f)
    ensures OnTerms(Put(s, b, f))
  {
  }

  lemma ClearedKeepsTerms(s: State, b: nat)
    requires OnTerms(s) && Live(s, b)
    ensures OnTerms(Cleared(s, b))
  {
  }

  lemma MakeKeepsTerms(s: State, a: Action)
    requires OnTerms(s) && Linear(s) && a.Make?
    ensures OnTerms(Step(s, a))
  {
    var u := s.(heap := s.heap + [a.size]);
    assert Linear(u) && OnTerms(u) by {
      assert forall p :: Owners(u, p) == Owners(s, p) && Deletions(u, p) == Deletions(s, p);
    }
    assert Owners(s, |s.heap|) + Deletions(s, |s.heap|) == 0;
    AdoptedKeepsTerms(u, Some(|s.heap|), a.size, a.deleter);
  }

  lemma MoveKeepsTerms(s: State, a: Action)
    requires OnTerms(s) && Enabled(s, a) && (a.MoveConstruct? || a.MoveAssign?)
    ensures OnTerms(Step(s, a))
  {
    match a
    case MoveConstruct(b) => PutKeepsTerms(Construct(s, s.bufs[b].fields), b, Empty);
    case MoveAssign(x, b) =>
      if x != b {
        var t := Cleared(s, x);
        ClearedKeepsTerms(s, x);
        PutKeepsTerms(t, x, t.bufs[b].fields);
        PutKeepsTerms(Put(t, x, t.bufs[b].fields), b, Empty);
      }
  }

  lemma StepKeepsTerms(s: State, a: Action)
    requires OnTerms(s) && Linear(s) && Enabled(s, a) && FairAction(s, a)
    ensures OnTerms(Step(s, a))
  {
    match a
    case Make(_, _, _, _) => MakeKeepsTerms(s, a);
    case Adopt(data, size, deleter) => AdoptedKeepsTerms(s, data, size, deleter);
    case Allocate(_) =>
    case Default =>
    case MoveConstruct(_) => MoveKeepsTerms(s, a);
    case MoveAssign(_, _) => MoveKeepsTerms(s, a);
    case Reset(b) => ClearedKeepsTerms(s, b);
    case Destroy(b) => ClearedKeepsTerms(s, b);
  }

  /** Adopting a pointer keeps ownership linear exactly when it throws or the pointer is nobody else's;
      every other operation keeps it always. */
  lemma StepKeepsLinearIff(s: State, a: Action)
    requires OnTerms(s) && Linear(s) && Enabled(s, a)
    ensures Linear(Step(s, a)) <==> FairAction(s, a)
  {
    var t := Step(s, a);
    forall p ensures Owners(t, p) + Deletions(t, p) == Owners(s, p) + Deletions(s, p) + Gain(s, a, p) {
      StepGains(s, a, p);
    }
    TakenGrows(s, a);
    hide Step, Owners, Deletions, OnTerms, Enabled;
    if a.Adopt? && !Refused(a.data, a.size, a.deleter) {
      assert Owners(s, a.data.value) + Deletions(s, a.data.value) == if a.data.value in s.taken then 1 else 0;
      assert a.data.value in t.taken;
    }
  }

  lemma StepGains(s: State, a: Action, p: nat)
    requires OnTerms(s) && Enabled(s, a)
    ensures var t := Step(s, a);
      Owners(t, p) + Deletions(t, p) == Owners(s, p) + Deletions(s, p) + Gain(s, a, p)
  {
    match a
    case Make(size, allocator, memory, deleter) =>
      var u := s.(heap := s.heap + [size]);
      assert Owners(u, p) == Owners(s, p) && Deletions(u, p) == Deletions(s, p);
      AdoptedAdds(u, Some(|s.heap|), size, deleter, p);
    case Adopt(data, size, deleter) => AdoptedAdds(s, data, size, deleter, p);
    case _ => MovesConserve(s, a, p);
  }

  /** Only allocations that a buffer takes come to be taken, and a new one was not before. */
  lemma TakenGrows(s: State, a: Action)
    requires OnTerms(s) && Enabled(s, a)
    ensures forall p: nat :: p in Step(s, a).taken <==> p in s.taken || Gain(s, a, p) == 1
    ensures a.Make? ==> |s.heap| !in s.taken
  {
  }

  ghost function Gain(s: State, a: Action, p: nat): nat {
    match a
    case Make(size, allocator, memory, deleter) =>
      if allocator && deleter.Some? && memory && size > 0 && p == |s.heap| then 1 else 0
    case Adopt(data, size, deleter) => if !Refused(data, size, deleter) && data == Some(p) then 1 else 0
    case _ => 0
  }

  // ---------- runs ----------

  /** Over any run, ownership is linear throughout exactly when every pointer handed to the constructor
      was nobody else's at that moment. */
  lemma {:induction false} LinearThroughoutIff(s: State, acts: seq<Action>)
    requires OnTerms(s) && Linear(s)
    ensures LinearThroughout(s, acts) <==> Fair(s, acts)
    decreases |acts|
  {
    if acts != [] && Enabled(s, acts[0]) {
      StepKeepsLinearIff(s, acts[0]);
      if FairAction(s, acts[0]) {
        StepKeepsTerms(s, acts[0]);
        LinearThroughoutIff(Step(s, acts[0]), acts[1..]);
      } else {
        assert !LinearThroughout(Step(s, acts[0]), acts[1..]);
      }
    }
  }

  lemma {:induction false} RunsKeepLinear(s: State, acts: seq<Action>, t: State)
    requires OnTerms(s) && Linear(s) && Fair(s, acts) && Runs(s, acts, t)
    ensures OnTerms(t) && Linear(t)
    decreases |acts|
  {
    if acts != [] {
      StepKeepsLinearIff(s, acts[0]);
      StepKeepsTerms(s, acts[0]);
      RunsKeepLinear(Step(s, acts[0]), acts[1..], t);
    }
  }

  lemma ReachableLinear(s: State)
    requires Reachable(s)
    ensures OnTerms(s) && Linear(s)
  {
    var acts :| Fair(Init(), acts) && Runs(Init(), acts, s);
    RunsKeepLinear(Init(), acts, s);
  }

  // ---------- main results ----------

  /** No allocation is deleted twice or held after its deletion, two buffers never hold the same one, and
      every deletion is made with the size and deleter the buffer was constructed with. */
  lemma NoDoubleDelete(s: State, p: nat)
    requires Reachable(s)
    ensures Deletions(s, p) <= 1
    ensures Deletions(s, p) == 1 ==> forall b :: 0 <= b < |s.bufs| ==> s.bufs[b].fields.data != Some(p)
    ensures forall b, c :: 0 <= b < c < |s.bufs| && s.bufs[b].fields.data == Some(p) ==>
                             s.bufs[c].fields.data != Some(p)
    ensures forall i :: 0 <= i < |s.deleted| ==>
                          && s.deleted[i].p in s.taken
                          && s.taken[s.deleted[i].p] == Terms(s.deleted[i].size, s.deleted[i].deleter)
  {
    ReachableLinear(s);
    assert Owners(s, p) + Deletions(s, p) <= 1;
    if Deletions(s, p) == 1 {
      SumZero(OwnsW(p), s.bufs);
      assert forall b :: 0 <= b < |s.bufs| ==> OwnsW(p)(s.bufs[b]) == 0;
    }
    forall b, c | 0 <= b < c < |s.bufs| && s.bufs[b].fields.data == Some(p)
      ensures s.bufs[c].fields.data != Some(p)
    {
      SumTwoElements(OwnsW(p), s.bufs, b, c);
    }
  }

  /** valid() is true exactly of the buffers that own an allocation, and an invalid buffer is empty. */
  lemma ValidIffOwner(s: State, b: nat)
    requires Reachable(s) && Live(s, b)
    ensures s.bufs[b].fields.data.Some? && s.bufs[b].fields.size > 0 <==>
            exists p: nat :: Owners(s, p) == 1 && s.bufs[b].fields.data == Some(p)
    ensures s.bufs[b].fields.data.None? ==> s.bufs[b].fields == Empty
  {
    ReachableLinear(s);
    var f := s.bufs[b].fields;
    if f.data.Some? {
      SumElement(OwnsW(f.data.value), s.bufs, b);
      assert Owners(s, f.data.value) + Deletions(s, f.data.value) <= 1;
    }
  }

  /** Once every buffer has been destroyed, everything a buffer ever took has been deleted exactly once. */
  lemma AllReturned(s: State, p: nat)
    requires Reachable(s) && p in s.taken
    requires forall b :: 0 <= b < |s.bufs| ==> !s.bufs[b].live
    ensures Deletions(s, p) == 1
  {
    ReachableLinear(s);
    assert forall b :: 0 <= b < |s.bufs| ==> OwnsW(p)(s.bufs[b]) == 0;
    SumZero(OwnsW(p), s.bufs);
  }

  ghost predicate OnlyMakes(acts: seq<Action>) {
    forall i :: 0 <= i < |acts| ==> !acts[i].Adopt? && !acts[i].Allocate?
  }

  /** What has been taken is what is not empty. */
  ghost predicate TakenSized(s: State) {
    forall p: nat :: p in s.taken <==> (p < |s.heap| && s.heap[p] > 0)
  }

  lemma StepKeepsTakenSized(s: State, a: Action)
    requires TakenSized(s) && Enabled(s, a) && !a.Adopt? && !a.Allocate?
    ensures TakenSized(Step(s, a))
  {
  }

  lemma {:induction false} RunsKeepTakenSized(s: State, acts: seq<Action>, t: State)
    requires OnlyMakes(acts) && Runs(s, acts, t) && TakenSized(s) && OnTerms(s) && Linear(s)
    ensures TakenSized(t) && OnTerms(t) && Linear(t)
    decreases |acts|
  {
    if acts != [] {
      assert !acts[0].Adopt? && !acts[0].Allocate?;
      assert forall i :: 0 <= i < |acts| - 1 ==> acts[1..][i] == acts[i + 1];
      assert OnlyMakes(acts[1..]);
      StepKeepsTakenSized(s, acts[0]);
      StepKeepsLinearIff(s, acts[0]);
      StepKeepsTerms(s, acts[0]);
      hide TakenSized, OnTerms, Linear, Step, OnlyMakes;
      RunsKeepTakenSized(Step(s, acts[0]), acts[1..], t);
    }
  }

  /** When every allocation is obtained through Make, one is lost, neither owned nor ever deleted, exactly
      when Make was asked for zero bytes: the allocation precedes the constructor that throws. */
  lemma LostIffMadeEmpty(acts: seq<Action>, s: State, p: nat)
    requires OnlyMakes(acts) && Runs(Init(), acts, s) && p < |s.heap|
    ensures Loose(s, p) <==> s.heap[p] == 0
  {
    RunsKeepTakenSized(Init(), acts, s);
    assert Owners(s, p) + Deletions(s, p) == if p in s.taken then 1 else 0;
  }

  /** The fairness condition is needed: handing over a pointer that another buffer holds, and then
      destroying both, deletes it twice. */
  lemma UnfairAdoptionDeletesTwice(s: State, b: nat, size: nat, deleter: Option<nat>)
    returns (t: State)
    requires Reachable(s) && Live(s, b) && s.bufs[b].fields.data.Some?
    requires !Refused(s.bufs[b].fields.data, size, deleter)
    ensures Runs(s, [Adopt(s.bufs[b].fields.data, size, deleter), Destroy(b), Destroy(|s.bufs|)], t)
    ensures Deletions(t, s.bufs[b].fields.data.value) == 2
  {
    ReachableLinear(s);
    var f := s.bufs[b].fields;
    var p := f.data.value;
    var x := Adopt(f.data, size, deleter);
    var u := Step(s, x);
    var v := Step(u, Destroy(b));
    t := Step(v, Destroy(|s.bufs|));
    assert Runs(t, [], t);
    assert [Destroy(|s.bufs|)][1..] == [];
    assert Runs(v, [Destroy(|s.bufs|)], t);
    assert [Destroy(b), Destroy(|s.bufs|)][1..] == [Destroy(|s.bufs|)];
    assert Runs(u, [Destroy(b), Destroy(|s.bufs|)], t);
    assert [x, Destroy(b), Destroy(|s.bufs|)][1..] == [Destroy(b), Destroy(|s.bufs|)];
    SumElement(OwnsW(p), s.bufs, b);
    assert Owners(s, p) + Deletions(s, p) <= 1;
    var d1, d2 := Deletion(p, f.size, f.deleter.value), Deletion(p, size, deleter.value);
    assert v.deleted == s.deleted + [d1];
    assert t.deleted == v.deleted + [d2];
    SumSnoc(DeletesW(p), s.deleted, d1);
    SumSnoc(DeletesW(p), v.deleted, d2);
  }

  /** A move hands over what the source held and leaves the source empty; what the target held before is
      deleted, and assigning a buffer to itself changes nothing. */
  lemma MoveTransfers(s: State, x: nat, b: nat)
    requires Reachable(s) && Live(s, x) && Live(s, b)
    ensures Step(s, MoveAssign(x, x)) == s
    ensures x != b ==>
              var t := Step(s, MoveAssign(x, b));
              && |t.bufs| == |s.bufs|
              && t.bufs[x] == s.bufs[b] && t.bufs[b] == Place(true, Empty)
              && (forall p :: Deletions(t, p) == Deletions(s, p) + OwnsW(p)(s.bufs[x]))
              && (forall c :: 0 <= c < |s.bufs| && c != x && c != b ==> t.bufs[c] == s.bufs[c])
  {
    ReachableLinear(s);
    if x != b {
      MoveAssigned(s, x, b);
      hide Step, Reachable, Linear;
      forall p ensures Deletions(Step(s, MoveAssign(x, b)), p) == Deletions(s, p) + OwnsW(p)(s.bufs[x]) {
        ReleaseDeletes(s, x, p);
      }
    }
  }

  lemma ReleaseDeletes(s: State, x: nat, p: nat)
    requires Live(s, x) && OnTerms(s)
    ensures Sum(DeletesW(p), s.deleted + Release(s.bufs[x].fields)) == Deletions(s, p) + OwnsW(p)(s.bufs[x])
  {
    var f := s.bufs[x].fields;
    SumAppend(DeletesW(p), s.deleted, Release(f));
    if f != Empty {
      assert Sum(DeletesW(p), Release(f)) == DeletesW(p)(Release(f)[0]) + Sum(DeletesW(p), []);
    }
  }

  lemma MoveAssigned(s: State, x: nat, b: nat)
    requires Live(s, x) && Live(s, b) && x != b
    ensures var t := Step(s, MoveAssign(x, b));
      t.bufs == s.bufs[x := s.bufs[b]][b := Place(true, Empty)]
      && t.deleted == s.deleted + Release(s.bufs[x].fields)
  {
  }

  /** Move construction adds a live buffer that owns what the source held, and leaves the source empty. */
  lemma MoveConstructTransfers(s: State, b: nat)
    requires Live(s, b)
    ensures var t := Step(s, MoveConstruct(b));
      && |t.bufs| == |s.bufs| + 1 && t.bufs[|s.bufs|] == s.bufs[b] && t.bufs[b] == Place(true, Empty)
      && (forall c :: 0 <= c < |s.bufs| && c != b ==> t.bufs[c] == s.bufs[c])
      && t.deleted == s.deleted && t.heap == s.heap
  {
  }

  /** A reset empties the buffer and deletes what it held, once, with its own size and deleter; destroying it
      does the same. */
  lemma ResetDeletes(s: State, b: nat, destroy: bool)
    requires Reachable(s) && Live(s, b)
    ensures var t := Step(s, if destroy then Destroy(b) else Reset(b)); var f := s.bufs[b].fields;
      && |t.bufs| == |s.bufs| && t.bufs[b] == Place(!destroy, Empty)
      && (forall c :: 0 <= c < |s.bufs| && c != b ==> t.bufs[c] == s.bufs[c])
      && (forall p :: Deletions(t, p) == Deletions(s, p) + OwnsW(p)(s.bufs[b]))
      && (f.data.Some? ==> f.deleter.Some? && t.deleted == s.deleted + [Deletion(f.data.value, f.size, f.deleter.value)])
  {
    ReachableLinear(s);
    var t := Step(s, if destroy then Destroy(b) else Reset(b));
    assert t.deleted == s.deleted + Release(s.bufs[b].fields);
    forall p ensures Deletions(t, p) == Deletions(s, p) + OwnsW(p)(s.bufs[b]) {
      ReleaseDeletes(s, b, p);
    }
  }

  /** Make with an allocator, memory and a deleter gives a new buffer that owns a fresh allocation of that
      size, exactly if the size is not zero; otherwise no buffer comes into being. */
  lemma MakeGives(s: State, size: nat, allocator: bool, memory: bool, deleter: Option<nat>)
    requires Reachable(s)
    ensures var t := Step(s, Make(size, allocator, memory, deleter));
      && t.deleted == s.deleted && |s.heap| !in s.taken
      && (t.heap == if allocator && memory && deleter.Some? then s.heap + [size] else s.heap)
      && if allocator && memory && deleter.Some? && size > 0
         then t.bufs == s.bufs + [Place(true, Fields(Some(|s.heap|), size, deleter))] && Owners(t, |s.heap|) == 1
         else t.bufs == s.bufs
  {
    ReachableLinear(s);
    assert Owners(s, |s.heap|) + Deletions(s, |s.heap|) == 0;
    ConstructAdds(s, Fields(Some(|s.heap|), size, deleter), |s.heap|);
  }
}
