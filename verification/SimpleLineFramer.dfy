/** The line framer over its scratch buffer: a scan, a compaction in place, and a regrowth. */
module LineFramers {
  import opened Sums
  import opened LineSplitting

  datatype Result = Lines(lines: seq<Bytes>) | EmptyLineError

  class SimpleLineFramer {
    var scratch: array<char>
    var writePos: nat

    ghost predicate Valid()
      reads this
    {
      writePos <= scratch.Length
    }

    /** The capacity, and the bytes that wait for their newline. */
    ghost function Abs(): Framer
      requires Valid()
      reads this, scratch
    {
      Framer(scratch.Length, scratch[..writePos])
    }

    constructor ()
      ensures Valid() && fresh(scratch) && Abs() == Framer(INITIAL, [])
    {
      scratch := new char[INITIAL];
      writePos := 0;
    }

    /** Makes sure that 1024 bytes are free; a regrown buffer starts empty. */
    method PrepareRead()
      requires Valid()
      modifies this
      ensures Valid() && Abs() == Prepared(old(Abs()))
      ensures scratch.Length - writePos >= RESERVE
      ensures scratch == old(scratch) || fresh(scratch)
    {
      if scratch.Length - writePos < RESERVE {
        scratch := new char[writePos + INITIAL];
        writePos := 0;
      }
    }

    /** The caller's read, as OnData expects it: behind the pending bytes. */
    method StoreBehind(chunk: Bytes)
      requires Valid() && Fits(Abs(), chunk)
      modifies scratch
      ensures Valid() && Abs() == old(Abs())
      ensures scratch[..writePos + |chunk|] == old(scratch[..writePos]) + chunk
    {
      var i := 0;
      while i < |chunk|
        invariant 0 <= i <= |chunk|
        invariant scratch[..writePos + i] == old(scratch[..writePos]) + chunk[..i]
      {
        scratch[writePos + i] := chunk[i];
        i := i + 1;
      }
      assert scratch[..writePos] == scratch[..writePos + |chunk|][..writePos];
    }

    /** Takes n more bytes, cuts out the complete lines and moves the rest to the front. */
    method OnData(n: nat) returns (r: Result)
      requires Valid() && writePos + n <= scratch.Length
      modifies this`writePos, scratch
      ensures Valid() && scratch == old(scratch)
      ensures var outcome := Received(old(Abs()), old(scratch[writePos..writePos + n]));
        && Abs() == outcome.framer
        && r == if outcome.Emitted? then Lines(outcome.lines) else EmptyLineError
    {
      hide Split;
      ghost var all := scratch[..writePos + n];
      assert all == old(scratch[..writePos]) + old(scratch[writePos..writePos + n]);
      writePos := writePos + n;
      var out: seq<Bytes> := [];
      var start, i := 0, 0;
      assert Split(all[..0]) == Parts([], all[0..0]) by {
        CleanIsOneTail(all[..0]);
      }
      while i < writePos
        invariant 0 <= start <= i <= writePos == |all| && scratch[..] == old(scratch[..])
        invariant Split(all[..i]) == Parts(out, all[start..i]) && NoEmptyLine(out)
      {
        ScanStep(all, start, i, out);
        assert scratch[start..i] == all[start..i];
        if scratch[i] == '\n' {
          var len := i - start;
          if len == 0 {
            EmptyLineStays(all, i + 1, start);
            return EmptyLineError;
          }
          out := out + [scratch[start..i]];
          start := i + 1;
        }
        i := i + 1;
      }
      assert all[..i] == all;
      if start < writePos {
        MoveToFront(start);
        writePos := writePos - start;
      } else {
        writePos := 0;
      }
      return Lines(out);
    }

    /** One turn of a reader: make room, store the chunk behind the pending bytes, take it in. */
    method FeedOne(chunk: Bytes) returns (r: Result)
      requires Valid() && Fits(Prepared(Abs()), chunk)
      modifies this, scratch
      ensures Valid() && (scratch == old(scratch) || fresh(scratch))
      ensures var outcome := Received(Prepared(old(Abs())), chunk);
        && Abs() == outcome.framer
        && r == if outcome.Emitted? then Lines(outcome.lines) else EmptyLineError
    {
      PrepareRead();
      StoreBehind(chunk);
      assert scratch[writePos..writePos + |chunk|] == scratch[..writePos + |chunk|][writePos..] == chunk;
      r := OnData(|chunk|);
    }

    /** A fresh framer fed chunk by chunk emits the lines that Feed says. */
    method FeedAll(chunks: seq<Bytes>) returns (lines: seq<Bytes>)
      requires Valid() && Abs() == Framer(INITIAL, []) && Feed(chunks).Some?
      modifies this, scratch
      ensures Valid() && lines == Feed(chunks).value.lines && Abs() == Feed(chunks).value.framer
    {
      lines := [];
      var i := 0;
      while i < |chunks|
        invariant 0 <= i <= |chunks| && Valid() && (scratch == old(scratch) || fresh(scratch))
        invariant Feed(chunks[..i]).Some? && lines == Feed(chunks[..i]).value.lines
        invariant Abs() == Feed(chunks[..i]).value.framer
      {
        PrefixFeeds(chunks, i + 1);
        assert chunks[..i + 1][..i] == chunks[..i];
        var r := FeedOne(chunks[i]);
        lines := lines + r.lines;
        i := i + 1;
      }
      assert chunks[..i] == chunks;
    }

    /** Moves the bytes from start up to write_pos to the front; source and target may overlap. */
    method MoveToFront(start: nat)
      requires Valid() && start <= writePos
      modifies scratch
      ensures scratch[..writePos - start] == old(scratch[start..writePos])
    {
      ghost var all := scratch[..writePos];
      var k := 0;
      while k < writePos - start
        invariant 0 <= k <= writePos - start
        invariant scratch[..k] == all[start..start + k]
        invariant forall j :: start + k <= j < writePos ==> scratch[j] == all[j]
      {
        scratch[k] := scratch[start + k];
        k := k + 1;
      }
    }
  }

  /** One more byte of the scan. */
  lemma ScanStep(all: Bytes, start: nat, i: nat, out: seq<Bytes>)
    requires start <= i < |all| && Split(all[..i]) == Parts(out, all[start..i])
    ensures Split(all[..i + 1]) == if all[i] == '\n' then Parts(out + [all[start..i]], all[i + 1..i + 1])
                                   else Parts(out, all[start..i + 1])
  {
    assert all[..i + 1][..i] == all[..i];
    assert all[start..i] + [all[i]] == all[start..i + 1];
  }

  /** An empty line in a prefix is an empty line of the whole. */
  lemma EmptyLineStays(all: Bytes, i: nat, start: nat)
    requires 0 < i <= |all| && start == i - 1 && all[i - 1] == '\n' && Split(all[..i - 1]).tail == []
    ensures !NoEmptyLine(Split(all).lines)
  {
    var p := Split(all[..i - 1]);
    assert all[..i][..i - 1] == all[..i - 1];
    assert Split(all[..i]).lines == p.lines + [[]];
    assert Split(all[..i]).lines[|p.lines|] == [];
    SplitAppend(all[..i], all[i..]);
    assert all[..i] + all[i..] == all;
    EmptyLinesAppend(Split(all[..i]).lines, Split(Split(all[..i]).tail + all[i..]).lines);
  }

  lemma {:induction false} PrefixFeeds(chunks: seq<Bytes>, i: nat)
    requires i <= |chunks| && Feed(chunks).Some?
    ensures Feed(chunks[..i]).Some?
    decreases |chunks|
  {
    if i < |chunks| {
      var front := chunks[..|chunks| - 1];
      PrefixFeeds(front, i);
      assert front[..i] == chunks[..i];
    } else {
      assert chunks[..i] == chunks;
    }
  }
}
