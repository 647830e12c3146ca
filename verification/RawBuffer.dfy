/** The raw buffer with its members overwritten in place, and a program that keeps any number of them. */
module RawBuffers {
  import opened Sums
  import opened OwnershipModel

  datatype Error = InvalidArgument | BadAlloc

  datatype Result<+T> = Ok(value: T) | Err(error: Error)

  /** The allocator and the deleters, as far as buffers see them: what was asked for and given back. */
  class Heap {
    var granted: seq<nat>
    var deleted: seq<Deletion>

    constructor ()
      ensures granted == [] && deleted == []
    {
      granted, deleted := [], [];
    }

    /** An allocator that may find no memory. */
    method Alloc(size: nat, memory: bool) returns (ptr: Option<nat>)
      modifies this`granted
      ensures ptr == if memory then Some(|old(granted)|) else None
      ensures granted == if memory then old(granted) + [size] else old(granted)
    {
      if memory {
        ptr := Some(|granted|);
        granted := granted + [size];
      } else {
        ptr := None;
      }
    }

    method CallDeleter(deleter: nat, p: nat, size: nat)
      modifies this`deleted
      ensures deleted == old(deleted) + [Deletion(p, size, deleter)]
    {
      deleted := deleted + [Deletion(p, size, deleter)];
    }
  }

  class RawBuffer {
    var data: Option<nat>
    var size: nat
    var deleter: Option<nat>

    ghost function Abs(): Fields
      reads this
    {
      Fields(data, size, deleter)
    }

    constructor ()
      ensures Abs() == Empty
    {
      data, size, deleter := None, 0, None;
    }

    constructor Take(ptr: Option<nat>, n: nat, d: Option<nat>)
      requires !Refused(ptr, n, d)
      ensures Abs() == Fields(ptr, n, d)
    {
      data, size, deleter := ptr, n, d;
    }

    constructor Move(other: RawBuffer)
      modifies other
      ensures Abs() == old(other.Abs()) && other.Abs() == Empty
    {
      new;
      MoveFrom(other);
    }

    /** The throwing constructor: nothing is constructed when it refuses its arguments. */
    static method Construct(ptr: Option<nat>, n: nat, d: Option<nat>) returns (r: Result<RawBuffer>)
      ensures r.Err? <==> Refused(ptr, n, d)
      ensures r.Err? ==> r.error == InvalidArgument
      ensures r.Ok? ==> fresh(r.value) && r.value.Abs() == Fields(ptr, n, d)
    {
      if ptr.None? || n == 0 || d.None? {
        r := Err(InvalidArgument);
      } else {
        var b := new RawBuffer.Take(ptr, n, d);
        r := Ok(b);
      }
    }

    /** Make allocates before the constructor looks at the size. */
    static method Make(n: nat, heap: Heap, allocator: bool, memory: bool, d: Option<nat>)
      returns (r: Result<RawBuffer>)
      modifies heap`granted
      ensures r.Ok? <==> allocator && memory && n > 0 && d.Some?
      ensures r.Err? ==> r.error == if allocator && d.Some? && !memory then BadAlloc else InvalidArgument
      ensures heap.granted == old(heap.granted) + if allocator && d.Some? && memory then [n] else []
      ensures r.Ok? ==> fresh(r.value) && r.value.Abs() == Fields(Some(|old(heap.granted)|), n, d)
    {
      if !allocator || d.None? {
        return Err(InvalidArgument);
      }
      var ptr := heap.Alloc(n, memory);
      if ptr.None? {
        return Err(BadAlloc);
      }
      r := Construct(ptr, n, d);
    }

    method IsValid() returns (v: bool)
      ensures v <==> data.Some? && size > 0
    {
      v := data.Some? && size > 0;
    }

    method Reset(heap: Heap)
      modifies this, heap`deleted
      ensures Abs() == Empty
      ensures heap.deleted == old(heap.deleted) + Release(old(Abs()))
    {
      if data.Some? && deleter.Some? {
        heap.CallDeleter(deleter.value, data.value, size);
      }
      data, size, deleter := None, 0, None;
    }

    method MoveFrom(other: RawBuffer)
      requires other != this
      modifies this, other
      ensures Abs() == old(other.Abs()) && other.Abs() == Empty
    {
      data, size, deleter := other.data, other.size, other.deleter;
      other.data, other.size, other.deleter := None, 0, None;
    }

    method MoveAssign(other: RawBuffer, heap: Heap)
      modifies this, other, heap`deleted
      ensures other == this ==> Abs() == old(Abs()) && heap.deleted == old(heap.deleted)
      ensures other != this ==>
                && Abs() == old(other.Abs()) && other.Abs() == Empty
                && heap.deleted == old(heap.deleted) + Release(old(Abs()))
    {
      if this != other {
        Reset(heap);
        MoveFrom(other);
      }
    }
  }

  /** A program with its buffers; a null entry is a buffer that has been destroyed. */
  class Program {
    const heap: Heap
    var bufs: seq<RawBuffer?>
    ghost var taken: map<nat, Terms>

    ghost predicate Valid()
      reads this
    {
      forall i, j :: 0 <= i < j < |bufs| && bufs[i] != null ==> bufs[i] != bufs[j]
    }

    ghost function PlaceOf(b: RawBuffer?): Place
      reads b
    {
      if b == null then Place(false, Empty) else Place(true, b.Abs())
    }

    ghost function PlacesOf(bs: seq<RawBuffer?>): seq<Place>
      reads set b | b in bs
    {
      seq(|bs|, i requires 0 <= i < |bs| reads set b | b in bs => PlaceOf(bs[i]))
    }

    ghost function Abs(): State
      reads this, heap, set b | b in bufs
    {
      State(PlacesOf(bufs), heap.granted, taken, heap.deleted)
    }

    constructor ()
      ensures Valid() && Abs() == Init()
      ensures fresh(heap)
    {
      heap := new Heap();
      bufs, taken := [], map[];
    }

    method Keep(r: Result<RawBuffer>)
      requires Valid() && (r.Ok? ==> r.value !in bufs && r.value.data.Some? && r.value.deleter.Some?)
      modifies this
      ensures Valid()
      ensures r.Err? ==> bufs == old(bufs) && taken == old(taken)
      ensures r.Ok? ==>
                && bufs == old(bufs) + [r.value]
                && taken == old(taken)[r.value.data.value := Terms(r.value.size, r.value.deleter.value)]
    {
      if r.Ok? {
        bufs := bufs + [r.value];
        taken := taken[r.value.data.value := Terms(r.value.size, r.value.deleter.value)];
      }
    }

    method Obtain(a: Action)
      requires Valid() && Enabled(Abs(), a) && (a.Default? || a.Make? || a.Allocate? || a.Adopt?)
      modifies this, heap
      ensures Valid() && Abs() == Step(old(Abs()), a)
      ensures forall b | b in bufs :: b in old(bufs) || fresh(b)
    {
      if a.Default? {
        var b := new RawBuffer();
        bufs := bufs + [b];
      } else if a.Make? {
        var r := RawBuffer.Make(a.size, heap, a.allocator, a.memory, a.deleter);
        Keep(r);
      } else if a.Allocate? {
        var _ := heap.Alloc(a.size, true);
      } else {
        var r := RawBuffer.Construct(a.data, a.size, a.deleter);
        Keep(r);
      }
    }

    method Pass(a: Action)
      requires Valid() && Enabled(Abs(), a) && (a.MoveConstruct? || a.MoveAssign?)
      modifies this, heap, set b | b in bufs
      ensures Valid() && Abs() == Step(old(Abs()), a)
      ensures forall b | b in bufs && b != null :: b in old(bufs) || fresh(b)
    {
      if a.MoveConstruct? {
        var moved := new RawBuffer.Move(bufs[a.b]);
        bufs := bufs + [moved];
      } else {
        bufs[a.a].MoveAssign(bufs[a.b], heap);
      }
    }

    method Drop(a: Action)
      requires Valid() && Enabled(Abs(), a) && (a.Reset? || a.Destroy?)
      modifies this, heap, set b | b in bufs
      ensures Valid() && Abs() == Step(old(Abs()), a)
      ensures forall b | b in bufs && b != null :: b in old(bufs)
    {
      bufs[a.b].Reset(heap);
      if a.Destroy? {
        bufs := bufs[a.b := null];
      }
    }

    /** Performs a run. */
    method Perform(acts: seq<Action>, ghost end: State)
      requires Valid() && Runs(Abs(), acts, end)
      modifies this, heap, set b | b in bufs
      ensures Valid() && Abs() == end
    {
      var i := 0;
      while i < |acts|
        invariant i <= |acts| && Valid() && Runs(Abs(), acts[i..], end)
        invariant forall b | b in bufs && b != null :: b in old(bufs) || fresh(b)
      {
        assert acts[i..][1..] == acts[i + 1..];
        if acts[i].Default? || acts[i].Make? || acts[i].Allocate? || acts[i].Adopt? {
          Obtain(acts[i]);
        } else if acts[i].MoveConstruct? || acts[i].MoveAssign? {
          Pass(acts[i]);
        } else {
          Drop(acts[i]);
        }
        i := i + 1;
      }
    }
  }
}
