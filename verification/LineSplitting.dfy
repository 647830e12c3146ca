/** Splitting a byte stream at newlines, and the line framer as a function of the chunks it is fed. */
module LineSplitting {
  import opened Sums

  type Bytes = seq<char>

  datatype Parts = Parts(lines: seq<Bytes>, tail: Bytes)

  /** The parts of a stream after one more byte. */
  ghost function Extended(p: Parts, c: char): Parts {
    if c == '\n' then Parts(p.lines + [p.tail], []) else Parts(p.lines, p.tail + [c])
  }

  /** The complete lines of a stream and its unterminated rest. */
  ghost function Split(stream: Bytes): Parts {
    if stream == [] then Parts([], [])
    else
      var last := |stream| - 1;
      Extended(Split(stream[..last]), stream[last])
  }

  /** Every line with its newline, then the rest. */
  ghost function Join(p: Parts): Bytes {
    Unlines(p.lines) + p.tail
  }

  ghost function Unlines(lines: seq<Bytes>): Bytes {
    if lines == [] then []
    else Unlines(lines[..|lines| - 1]) + lines[|lines| - 1] + ['\n']
  }

  lemma UnlinesSnoc(lines: seq<Bytes>, line: Bytes)
    ensures Unlines(lines + [line]) == Unlines(lines) + line + ['\n']
  {
    assert (lines + [line])[..|lines|] == lines;
  }

  ghost predicate Clean(s: Bytes) { '\n' !in s }

  ghost predicate AllClean(p: Parts) { Clean(p.tail) && forall i :: 0 <= i < |p.lines| ==> Clean(p.lines[i]) }

  lemma SplitSnoc(s: Bytes, c: char)
    ensures Split(s + [c]) == Extended(Split(s), c)
  {
    assert (s + [c])[..|s|] == s;
  }

  lemma JoinSnoc(p: Parts, c: char)
    requires AllClean(p)
    ensures Join(Extended(p, c)) == Join(p) + [c] && AllClean(Extended(p, c))
  {
    if c == '\n' {
      UnlinesSnoc(p.lines, p.tail);
      assert Unlines(p.lines) + p.tail + ['\n'] == Join(p) + ['\n'];
    } else {
      assert Unlines(p.lines) + (p.tail + [c]) == Join(p) + [c];
    }
  }

  /** Splitting loses nothing and leaves no newline inside a part. */
  lemma {:induction false} JoinSplit(stream: Bytes)
    ensures Join(Split(stream)) == stream && AllClean(Split(stream))
  {
    if stream != [] {
      var front, c := stream[..|stream| - 1], stream[|stream| - 1];
      JoinSplit(front);
      hide Split, Join, AllClean, Extended;
      SplitSnoc(front, c);
      JoinSnoc(Split(front), c);
      assert stream == front + [c];
    }
  }

  /** Clean parts are the empty parts, or arise from clean parts by one more byte. */
  lemma LastByte(p: Parts) returns (q: Parts, c: char)
    requires AllClean(p) && p != Parts([], [])
    ensures AllClean(q) && Extended(q, c) == p
    ensures |q.lines| < |p.lines| || (q.lines == p.lines && |q.tail| < |p.tail|)
  {
    if p.tail != [] {
      var last := |p.tail| - 1;
      q, c := Parts(p.lines, p.tail[..last]), p.tail[last];
      assert c in p.tail && p.tail == p.tail[..last] + [c];
    } else {
      var last := |p.lines| - 1;
      q, c := Parts(p.lines[..last], p.lines[last]), '\n';
      assert p.lines == p.lines[..last] + [p.lines[last]];
    }
  }

  /** Joining is inverse to splitting on clean parts, so a stream has only one decomposition. */
  lemma {:induction false} SplitJoin(p: Parts)
    requires AllClean(p)
    ensures Split(Join(p)) == p
    decreases |p.lines|, |p.tail|
  {
    if p != Parts([], []) {
      var q, c := LastByte(p);
      hide Split, Join, Extended, AllClean;
      SplitJoin(q);
      JoinSnoc(q, c);
      SplitSnoc(Join(q), c);
    } else {
      assert Join(p) == [];
    }
  }

  /** What parts become behind lines that have already been cut off. */
  ghost function Behind(lines: seq<Bytes>, p: Parts): Parts { Parts(lines + p.lines, p.tail) }

  lemma BehindExtended(lines: seq<Bytes>, p: Parts, c: char)
    ensures Extended(Behind(lines, p), c) == Behind(lines, Extended(p, c))
  {
    if c == '\n' {
      assert lines + (p.lines + [p.tail]) == lines + p.lines + [p.tail];
    }
  }

  /** Splitting can go on from the rest of what has been split already. */
  lemma {:induction false} SplitAppend(a: Bytes, b: Bytes)
    ensures Split(a + b) == Behind(Split(a).lines, Split(Split(a).tail + b))
    decreases |b|
  {
    var t := Split(a).tail;
    if b == [] {
      assert a + b == a && t + b == t;
      TailIsSplit(a);
      assert Split(a).lines + [] == Split(a).lines;
    } else {
      var front, c := b[..|b| - 1], b[|b| - 1];
      SplitAppend(a, front);
      assert b == front + [c];
      assert a + b == (a + front) + [c] && t + b == (t + front) + [c];
      hide Split, Extended, Behind;
      SplitSnoc(a + front, c);
      SplitSnoc(t + front, c);
      BehindExtended(Split(a).lines, Split(t + front), c);
    }
  }

  lemma TailIsSplit(a: Bytes)
    ensures Split(Split(a).tail) == Parts([], Split(a).tail)
  {
    JoinSplit(a);
    CleanIsOneTail(Split(a).tail);
  }

  lemma {:induction false} CleanIsOneTail(s: Bytes)
    requires Clean(s)
    ensures Split(s) == Parts([], s)
  {
    if s != [] {
      CleanIsOneTail(s[..|s| - 1]);
      assert s[|s| - 1] in s;
      assert s[..|s| - 1] + [s[|s| - 1]] == s;
    }
  }

  ghost predicate NoEmptyLine(lines: seq<Bytes>) { forall i :: 0 <= i < |lines| ==> lines[i] != [] }

  // ---------- the framer, one chunk at a time ----------

  const INITIAL: nat := 4096
  const RESERVE: nat := 1024

  datatype Framer = Framer(capacity: nat, pending: Bytes)

  /** An empty line throws: its buffer would have size zero. */
  datatype Outcome = Threw(framer: Framer) | Emitted(framer: Framer, lines: seq<Bytes>)

  ghost predicate NeedsRoom(f: Framer) { f.capacity - |f.pending| < RESERVE }

  /** PrepareRead: a new, larger buffer when too little is free; what was pending is gone then. */
  ghost function Prepared(f: Framer): Framer {
    if NeedsRoom(f) then Framer(|f.pending| + INITIAL, []) else f
  }

  ghost predicate Fits(f: Framer, chunk: Bytes) { |f.pending| + |chunk| <= f.capacity }

  /** OnData, for a chunk stored behind the pending bytes. */
  ghost function Received(f: Framer, chunk: Bytes): Outcome {
    var p := Split(f.pending + chunk);
    if NoEmptyLine(p.lines) then Emitted(Framer(f.capacity, p.tail), p.lines)
    else Threw(Framer(f.capacity, f.pending + chunk))
  }

  datatype Progress = Progress(framer: Framer, lines: seq<Bytes>, lost: nat, regrowths: nat)

  ghost function Advance(p: Progress, chunk: Bytes): Option<Progress> {
    var f := Prepared(p.framer);
    if !Fits(f, chunk) then None
    else
      match Received(f, chunk)
      case Threw(_) => None
      case Emitted(g, lines) =>
        Some(Progress(g, p.lines + lines,
                      p.lost + if NeedsRoom(p.framer) then |p.framer.pending| else 0,
                      p.regrowths + if NeedsRoom(p.framer) then 1 else 0))
  }

  /** A fresh framer fed with the chunks one after the other; None if one does not fit or throws. */
  ghost function Feed(chunks: seq<Bytes>): Option<Progress> {
    if chunks == [] then Some(Progress(Framer(INITIAL, []), [], 0, 0))
    else
      var last := |chunks| - 1;
      match Feed(chunks[..last])
      case None => None
      case Some(p) => Advance(p, chunks[last])
  }

  ghost function Flatten(chunks: seq<Bytes>): Bytes {
    if chunks == [] then [] else Flatten(chunks[..|chunks| - 1]) + chunks[|chunks| - 1]
  }

  lemma {:induction false} UnlinesAppend(a: seq<Bytes>, b: seq<Bytes>)
    ensures |Unlines(a + b)| == |Unlines(a)| + |Unlines(b)|
  {
    if b == [] {
      assert a + b == a;
    } else {
      var last := |b| - 1;
      UnlinesAppend(a, b[..last]);
      assert (a + b)[..|a + b| - 1] == a + b[..last];
    }
  }

  /** Every byte fed is in a line, counted as a newline, pending, or discarded by a regrowth. */
  lemma {:induction false} BytesAccounted(chunks: seq<Bytes>)
    requires Feed(chunks).Some?
    ensures var p := Feed(chunks).value;
      |Unlines(p.lines)| + |p.framer.pending| + p.lost == |Flatten(chunks)|
  {
    if chunks != [] {
      var last := |chunks| - 1;
      BytesAccounted(chunks[..last]);
      var p := Feed(chunks[..last]).value;
      var f := Prepared(p.framer);
      JoinSplit(f.pending + chunks[last]);
      UnlinesAppend(p.lines, Split(f.pending + chunks[last]).lines);
    }
  }

  /** As long as nothing has been discarded the framer has split the stream. */
  lemma {:induction false} FaithfulWhileNothingLost(chunks: seq<Bytes>)
    requires Feed(chunks).Some? && Feed(chunks).value.lost == 0
    ensures var p := Feed(chunks).value; Split(Flatten(chunks)) == Parts(p.lines, p.framer.pending)
  {
    if chunks != [] {
      var last := |chunks| - 1;
      var p := Feed(chunks[..last]).value;
      FaithfulWhileNothingLost(chunks[..last]);
      SplitAppend(Flatten(chunks[..last]), chunks[last]);
      assert Prepared(p.framer).pending == p.framer.pending;
    }
  }

  /** The unterminated rest before each chunk leaves the reserve free in a buffer of the first size. */
  ghost predicate TailsShort(chunks: seq<Bytes>) {
    forall k :: 0 <= k < |chunks| ==> TailShort(chunks[..k])
  }

  ghost predicate TailShort(read: seq<Bytes>) { |Split(Flatten(read)).tail| + RESERVE <= INITIAL }

  lemma TailsShortSnoc(chunks: seq<Bytes>)
    requires chunks != []
    ensures TailsShort(chunks) <==> TailsShort(chunks[..|chunks| - 1]) && TailShort(chunks[..|chunks| - 1])
  {
    var front := chunks[..|chunks| - 1];
    assert forall k :: 0 <= k < |front| ==> front[..k] == chunks[..k];
    if TailsShort(chunks) {
      forall k | 0 <= k < |front| ensures TailShort(front[..k]) {
        assert TailShort(chunks[..k]);
      }
    }
    if TailsShort(front) && TailShort(front) {
      forall k | 0 <= k < |chunks| ensures TailShort(chunks[..k]) {
        assert k < |front| ==> TailShort(front[..k]);
      }
    }
  }

  /** Nothing is discarded exactly when every rest was short.  A regrowth happens only to a buffer that
      is nearly full of pending bytes, so every regrowth loses some. */
  lemma {:induction false} NothingLostIff(chunks: seq<Bytes>)
    requires Feed(chunks).Some?
    ensures var p := Feed(chunks).value;
      && (p.lost == 0 <==> TailsShort(chunks))
      && (p.lost == 0 <==> p.regrowths == 0)
      && INITIAL <= p.framer.capacity && (p.regrowths == 0 ==> p.framer.capacity == INITIAL)
  {
    if chunks != [] {
      var front := chunks[..|chunks| - 1];
      NothingLostIff(front);
      TailsShortSnoc(chunks);
      if Feed(front).value.lost == 0 {
        FaithfulWhileNothingLost(front);
      }
    }
  }

  /** Streaming equals splitting the whole stream, exactly when the unterminated rest before each chunk
      left the reserve free. */
  lemma StreamingIsSplittingIff(chunks: seq<Bytes>)
    requires Feed(chunks).Some?
    ensures var p := Feed(chunks).value;
      Parts(p.lines, p.framer.pending) == Split(Flatten(chunks)) <==> TailsShort(chunks)
  {
    var p := Feed(chunks).value;
    NothingLostIff(chunks);
    if p.lost == 0 {
      FaithfulWhileNothingLost(chunks);
    } else {
      BytesAccounted(chunks);
      JoinSplit(Flatten(chunks));
    }
  }

  /** What one clean chunk does to a framer. */
  lemma CleanAdvance(p: Progress, chunk: Bytes)
    requires Clean(Prepared(p.framer).pending + chunk) && Fits(Prepared(p.framer), chunk)
    ensures Advance(p, chunk).Some?
    ensures var f := Prepared(p.framer);
      Advance(p, chunk).value.framer == Framer(f.capacity, f.pending + chunk)
    ensures Advance(p, chunk).value.lost == p.lost + if NeedsRoom(p.framer) then |p.framer.pending| else 0
  {
    CleanIsOneTail(Prepared(p.framer).pending + chunk);
  }

  /** An accepted chunking that loses bytes: 3073 bytes without a newline, then one more. */
  lemma LossExample(filler: Bytes)
    requires |filler| == INITIAL - RESERVE + 1 && Clean(filler)
    ensures var chunks := [filler, ['b']];
      && Feed(chunks).Some? && Feed(chunks).value.lost == |filler| && !TailsShort(chunks)
  {
    var chunks := [filler, ['b']];
    assert chunks[..1] == [filler] && [filler][..0] == [];
    assert [] + filler == filler && [] + ['b'] == ['b'];
    assert Clean(filler) && Clean(['b']);
    hide Split, Advance, Clean, TailsShort;
    CleanAdvance(Progress(Framer(INITIAL, []), [], 0, 0), filler);
    assert Feed([filler]) == Advance(Progress(Framer(INITIAL, []), [], 0, 0), filler);
    CleanAdvance(Feed([filler]).value, ['b']);
    NothingLostIff(chunks);
  }

  /** The lines do not depend on how the stream was cut into chunks. */
  lemma ChunkingIndependence(a: seq<Bytes>, b: seq<Bytes>)
    requires Flatten(a) == Flatten(b) && Feed(a).Some? && Feed(b).Some?
    requires TailsShort(a) && TailsShort(b)
    ensures Feed(a).value.lines == Feed(b).value.lines
    ensures Feed(a).value.framer.pending == Feed(b).value.framer.pending
  {
    StreamingIsSplittingIff(a);
    StreamingIsSplittingIff(b);
  }

  /** Each chunk fits behind the unterminated rest of what came before, with the reserve free. */
  ghost predicate Roomy(chunks: seq<Bytes>) {
    forall k :: 0 <= k < |chunks| ==> RoomyAt(Split(Flatten(chunks[..k])).tail, chunks[k])
  }

  ghost predicate RoomyAt(tail: Bytes, chunk: Bytes) {
    |tail| + RESERVE <= INITIAL && |tail| + |chunk| <= INITIAL
  }

  /** With room for every chunk the framer accepts exactly the streams without an empty line, and
      splits them. */
  lemma {:induction false} AcceptsIffNoEmptyLine(chunks: seq<Bytes>)
    requires Roomy(chunks)
    ensures Feed(chunks).Some? <==> NoEmptyLine(Split(Flatten(chunks)).lines)
    ensures Feed(chunks).Some? ==>
              var p := Feed(chunks).value;
              && p.lost == 0 && p.framer.capacity == INITIAL
              && Split(Flatten(chunks)) == Parts(p.lines, p.framer.pending)
  {
    if chunks != [] {
      var last := |chunks| - 1;
      var front := chunks[..last];
      forall k | 0 <= k < last
        ensures RoomyAt(Split(Flatten(front[..k])).tail, front[k])
      {
        assert front[..k] == chunks[..k] && front[k] == chunks[k];
      }
      hide Split, Flatten, NoEmptyLine, RoomyAt, Advance;
      AcceptsIffNoEmptyLine(front);
      assert RoomyAt(Split(Flatten(front)).tail, chunks[last]);
      StreamStep(chunks);
      if Feed(front).Some? {
        AdvanceAccepts(Feed(front).value, chunks[last]);
      }
    }
  }

  /** The stream after its last chunk. */
  lemma StreamStep(chunks: seq<Bytes>)
    requires chunks != []
    ensures var front := chunks[..|chunks| - 1];
      var p := Split(Split(Flatten(front)).tail + chunks[|chunks| - 1]);
      && Split(Flatten(chunks)) == Behind(Split(Flatten(front)).lines, p)
      && (NoEmptyLine(Split(Flatten(chunks)).lines)
          <==> NoEmptyLine(Split(Flatten(front)).lines) && NoEmptyLine(p.lines))
  {
    var front, chunk := chunks[..|chunks| - 1], chunks[|chunks| - 1];
    SplitAppend(Flatten(front), chunk);
    EmptyLinesAppend(Split(Flatten(front)).lines, Split(Split(Flatten(front)).tail + chunk).lines);
  }

  /** One more chunk, for a framer with room. */
  lemma AdvanceAccepts(p: Progress, chunk: Bytes)
    requires p.framer.capacity == INITIAL && RoomyAt(p.framer.pending, chunk)
    ensures var q := Split(p.framer.pending + chunk);
      Advance(p, chunk) == if NoEmptyLine(q.lines)
                           then Some(Progress(Framer(INITIAL, q.tail), p.lines + q.lines, p.lost, p.regrowths))
                           else None
  {
  }

  lemma EmptyLinesAppend(a: seq<Bytes>, b: seq<Bytes>)
    ensures NoEmptyLine(a + b) <==> NoEmptyLine(a) && NoEmptyLine(b)
  {
    if NoEmptyLine(a + b) {
      assert forall i :: 0 <= i < |a| ==> a[i] == (a + b)[i];
      assert forall i :: 0 <= i < |b| ==> b[i] == (a + b)[|a| + i];
    }
  }

  // ---------- after an empty line ----------

  /** The buffered bytes hold an empty line. */
  ghost predicate Blocked(f: Framer) { !NoEmptyLine(Split(f.pending).lines) }

  /** More bytes do not remove an empty line. */
  lemma BlockedStays(f: Framer, more: Bytes)
    ensures Blocked(f) ==> Received(f, more).Threw?
    ensures Received(f, more).Threw? ==> Blocked(Received(f, more).framer)
  {
    SplitAppend(f.pending, more);
    EmptyLinesAppend(Split(f.pending).lines, Split(Split(f.pending).tail + more).lines);
  }

  /** One turn of a reader: make room, then take in what was read. */
  ghost function Turn(f: Framer, chunk: Bytes): Outcome { Received(Prepared(f), chunk) }

  /** The turn after a throw throws again, exactly unless it regrows the buffer, which discards the empty
      line with everything else, and brings no empty line of its own. */
  lemma ThrowsAgainIff(f: Framer, chunk: Bytes, more: Bytes)
    requires Received(f, chunk).Threw?
    ensures var g := Received(f, chunk).framer;
      Turn(g, more).Threw? <==> !NeedsRoom(g) || !NoEmptyLine(Split(more).lines)
  {
    var g := Received(f, chunk).framer;
    assert Blocked(g);
    hide Split, NoEmptyLine;
    if NeedsRoom(g) {
      assert [] + more == more;
    } else {
      BlockedStays(g, more);
    }
  }

  /** Every turn of the sequence throws. */
  ghost predicate AllThrow(f: Framer, chunks: seq<Bytes>)
    decreases |chunks|
  {
    chunks == [] || (Turn(f, chunks[0]).Threw? && AllThrow(Turn(f, chunks[0]).framer, chunks[1..]))
  }

  /** The reserve is free before every one of these chunks, if all are kept. */
  ghost predicate RoomForAll(free: int, chunks: seq<Bytes>)
    decreases |chunks|
  {
    chunks == [] || (free >= RESERVE && RoomForAll(free - |chunks[0]|, chunks[1..]))
  }

  /** A framer that holds an empty line throws at every turn until the reserve is used up, and recovers at
      the first turn after that. */
  lemma {:induction false} BlockedWhileRoom(f: Framer, chunks: seq<Bytes>)
    requires Blocked(f) && forall k :: 0 <= k < |chunks| ==> NoEmptyLine(Split(chunks[k]).lines)
    ensures AllThrow(f, chunks) <==> RoomForAll(f.capacity - |f.pending|, chunks)
    decreases |chunks|
  {
    if chunks != [] {
      if NeedsRoom(f) {
        assert Prepared(f).pending + chunks[0] == chunks[0];
      } else {
        BlockedStays(f, chunks[0]);
        assert forall k :: 0 <= k < |chunks| - 1 ==> chunks[1..][k] == chunks[k + 1];
        BlockedWhileRoom(Turn(f, chunks[0]).framer, chunks[1..]);
      }
    }
  }

  lemma EmptyLineThen(filler: Bytes)
    requires Clean(filler)
    ensures Split(['\n'] + filler) == Parts([[]], filler) && Split([]) == Parts([], [])
  {
    assert ['\n'][..0] == [] && [] + filler == filler;
    SplitAppend(['\n'], filler);
    CleanIsOneTail(filler);
  }

  /** An input after which a framer recovers: an empty line, then enough to use up the reserve. */
  lemma RecoveryExample(filler: Bytes)
    requires |filler| == INITIAL - RESERVE && Clean(filler)
    ensures var f := Framer(INITIAL, []); var chunk := ['\n'] + filler;
      && Fits(f, chunk) && Received(f, chunk).Threw?
      && Turn(Received(f, chunk).framer, []) == Emitted(Framer(|chunk| + INITIAL, []), [])
  {
    var chunk := ['\n'] + filler;
    EmptyLineThen(filler);
    hide Split;
    assert [] + chunk == chunk;
    assert Split(chunk).lines[0] == [];
  }

  /** PrepareRead always leaves the reserve free; a regrown buffer has 4096 bytes more than were pending, and
      starts empty, so each regrowth adds between 3073 and 4096 bytes. */
  lemma RegrowthStep(f: Framer)
    requires |f.pending| <= f.capacity
    ensures Prepared(f).capacity - |Prepared(f).pending| >= RESERVE
    ensures NeedsRoom(f) ==> Prepared(f) == Framer(|f.pending| + 4096, [])
    ensures NeedsRoom(f) ==> f.capacity + 3073 <= Prepared(f).capacity <= f.capacity + 4096
    ensures Prepared(f).pending == f.pending <==> !NeedsRoom(f) || f.pending == []
  {
  }

  ghost function Triangle(g: nat): nat { if g == 0 then 0 else Triangle(g - 1) + g }

  lemma {:induction false} TriangleClosed(g: nat)
    ensures 2 * Triangle(g) == g * (g + 1)
  {
    if g > 0 {
      TriangleClosed(g - 1);
      assert g * (g + 1) == (g - 1) * g + 2 * g;
    }
  }

  /** After g regrowths the capacity is between 4096 + 3073 g and 4096 (g + 1), and at least 3073 times
      g (g + 1) / 2 bytes have been discarded, so at least as many have been received. */
  lemma {:induction false} CapacityGrowth(chunks: seq<Bytes>)
    requires Feed(chunks).Some?
    ensures var p := Feed(chunks).value; var g := p.regrowths;
      && |p.framer.pending| <= p.framer.capacity
      && 4096 + 3073 * g <= p.framer.capacity <= 4096 * (g + 1)
      && 3073 * Triangle(g) <= p.lost <= |Flatten(chunks)|
  {
    BytesAccounted(chunks);
    if chunks != [] {
      var last := |chunks| - 1;
      CapacityGrowth(chunks[..last]);
      var p := Feed(chunks[..last]).value;
      hide Split, Feed, Flatten, Unlines, NoEmptyLine;
      AdvanceSizes(p, chunks[last]);
    }
  }

  /** How one chunk changes the sizes. */
  lemma AdvanceSizes(p: Progress, chunk: Bytes)
    requires Advance(p, chunk).Some? && |p.framer.pending| <= p.framer.capacity
    ensures var q := Advance(p, chunk).value;
      && |q.framer.pending| <= q.framer.capacity
      && if q.regrowths == p.regrowths then q.framer.capacity == p.framer.capacity && q.lost == p.lost
         else && q.regrowths == p.regrowths + 1
              && p.framer.capacity + 3073 <= q.framer.capacity <= p.framer.capacity + 4096
              && p.lost + p.framer.capacity - 1023 <= q.lost
  {
    var f := Prepared(p.framer);
    RegrowthStep(p.framer);
    JoinSplit(f.pending + chunk);
    hide Split, NoEmptyLine;
  }

  // ---------- where the caller stores a chunk ----------

  ghost function Overlay(buf: Bytes, at: nat, chunk: Bytes): Bytes
    requires at + |chunk| <= |buf|
  {
    buf[..at] + chunk + buf[at + |chunk|..]
  }

  /** The client lets async_read_some store at offset 0, while OnData takes the first write_pos + n
      bytes.  That is the stream for every chunk exactly when nothing is pending. */
  lemma StoringAtZeroWorksIff(buf: Bytes, writePos: nat)
    requires writePos < |buf|
    ensures (forall chunk :: writePos + |chunk| <= |buf| ==>
               Overlay(buf, 0, chunk)[..writePos + |chunk|] == buf[..writePos] + chunk)
            <==> writePos == 0
  {
    if writePos > 0 {
      var chunk := [if buf[0] == 'x' then 'y' else 'x'];
      assert Overlay(buf, 0, chunk)[..writePos + 1][0] == chunk[0];
      assert (buf[..writePos] + chunk)[0] == buf[0];
    }
  }

  /** A framer whose caller stores every chunk at offset 0; `junk` is what fresh memory holds. */
  datatype Raw = Raw(buf: Bytes, writePos: nat, lines: seq<Bytes>)

  ghost function Regrown(r: Raw, junk: nat -> char): Raw {
    if |r.buf| - r.writePos < RESERVE then Raw(seq(r.writePos + INITIAL, junk), 0, r.lines) else r
  }

  /** None if OnData throws, or would read beyond the buffer. */
  ghost function TurnAtZero(r: Raw, junk: nat -> char, chunk: Bytes): Option<Raw> {
    var b := Regrown(r, junk);
    if b.writePos + |chunk| > |b.buf| then None
    else
      var buf := Overlay(b.buf, 0, chunk);
      var p := Split(buf[..b.writePos + |chunk|]);
      if NoEmptyLine(p.lines) && |p.tail| <= |buf|
      then Some(Raw(p.tail + buf[|p.tail|..], |p.tail|, b.lines + p.lines))
      else None
  }

  ghost function FeedAtZero(junk: nat -> char, chunks: seq<Bytes>): Option<Raw> {
    if chunks == [] then Some(Raw(seq(INITIAL, junk), 0, []))
    else
      var last := |chunks| - 1;
      match FeedAtZero(junk, chunks[..last])
      case None => None
      case Some(r) => TurnAtZero(r, junk, chunks[last])
  }

  /** The framer has split the stream and holds its rest. */
  ghost predicate RightAtZero(junk: nat -> char, chunks: seq<Bytes>) {
    && FeedAtZero(junk, chunks).Some?
    && var r := FeedAtZero(junk, chunks).value;
       && r.writePos <= |r.buf| && INITIAL <= |r.buf|
       && Parts(r.lines, r.buf[..r.writePos]) == Split(Flatten(chunks))
  }

  /** A chunk that can be stored and has no empty line. */
  ghost predicate Plain(chunk: Bytes) { |chunk| <= INITIAL && NoEmptyLine(Split(chunk).lines) }

  lemma AlignedTurn(r: Raw, junk: nat -> char, chunk: Bytes)
    requires r.writePos == 0 && INITIAL <= |r.buf| && Plain(chunk)
    ensures var p := Split(chunk); var t := TurnAtZero(r, junk, chunk);
      && t.Some? && t.value.writePos <= |t.value.buf| && |t.value.buf| == |r.buf|
      && t.value.lines == r.lines + p.lines && t.value.buf[..t.value.writePos] == p.tail
  {
    JoinSplit(chunk);
    assert Overlay(r.buf, 0, chunk)[..|chunk|] == chunk;
    assert TurnAtZero(r, junk, chunk).value.buf[..|Split(chunk).tail|] == Split(chunk).tail;
  }

  /** A turn that starts with pending bytes goes wrong for some next byte: it is stored over the first of
      them, or they have just been discarded. */
  lemma UnalignedTurn(r: Raw, junk: nat -> char, c: char)
    requires 0 < r.writePos <= |r.buf| && c != r.buf[0] && TurnAtZero(r, junk, [c]).Some?
    ensures var t := TurnAtZero(r, junk, [c]).value; var p := Split(r.buf[..r.writePos] + [c]);
      t.writePos > |t.buf| || t.lines != r.lines + p.lines || t.buf[..t.writePos] != p.tail
  {
    var b := Regrown(r, junk);
    var t := TurnAtZero(r, junk, [c]).value;
    var tail := r.buf[..r.writePos];
    var taken := Overlay(b.buf, 0, [c])[..b.writePos + 1];
    var p, q := Split(tail + [c]), Split(taken);
    JoinSplit(tail + [c]);
    JoinSplit(taken);
    assert taken[0] == c && (tail + [c])[0] == tail[0];
    assert p != q;
    assert t.lines == r.lines + q.lines && t.buf[..t.writePos] == q.tail;
    Cancel(r.lines, p.lines, q.lines);
  }

  lemma Cancel(a: seq<Bytes>, x: seq<Bytes>, y: seq<Bytes>)
    ensures a + x == a + y ==> x == y
  {
    assert (a + x)[|a|..] == x && (a + y)[|a|..] == y;
  }

  /** After any run that has gone right so far, storing the next chunk at offset 0 goes right for every
      chunk exactly when the stream read so far ends with a newline, or is empty. */
  lemma NextAtZeroWorksIff(junk: nat -> char, chunks: seq<Bytes>)
    requires RightAtZero(junk, chunks)
    ensures (forall chunk :: Plain(chunk) ==> RightAtZero(junk, chunks + [chunk]))
            <==> Split(Flatten(chunks)).tail == []
  {
    var r := FeedAtZero(junk, chunks).value;
    if r.writePos == 0 {
      forall chunk | Plain(chunk) ensures RightAtZero(junk, chunks + [chunk]) {
        AppendChunk(junk, chunks, chunk);
        AlignedTurn(r, junk, chunk);
        assert [] + chunk == chunk;
      }
    } else {
      var c := if r.buf[0] == 'x' then 'y' else 'x';
      AppendChunk(junk, chunks, [c]);
      CleanIsOneTail([c]);
      assert Plain([c]);
      if RightAtZero(junk, chunks + [[c]]) {
        UnalignedTurn(r, junk, c);
        assert false;
      }
    }
  }

  lemma AppendChunk(junk: nat -> char, chunks: seq<Bytes>, chunk: Bytes)
    requires FeedAtZero(junk, chunks).Some?
    ensures FeedAtZero(junk, chunks + [chunk]) == TurnAtZero(FeedAtZero(junk, chunks).value, junk, chunk)
    ensures Split(Flatten(chunks + [chunk]))
            == Parts(Split(Flatten(chunks)).lines + Split(Split(Flatten(chunks)).tail + chunk).lines,
                     Split(Split(Flatten(chunks)).tail + chunk).tail)
  {
    assert (chunks + [chunk])[..|chunks|] == chunks;
    SplitAppend(Flatten(chunks), chunk);
  }

  /** Each chunk has no empty line, and follows chunks that end with their lines. */
  ghost predicate Aligned(chunks: seq<Bytes>) {
    chunks == []
    || (Aligned(chunks[..|chunks| - 1]) && PlainAfter(chunks[..|chunks| - 1], chunks[|chunks| - 1]))
  }

  /** A client that stores at offset 0 is safe on chunks that end with their lines. */
  lemma {:induction false} AlignedRunWorks(junk: nat -> char, chunks: seq<Bytes>)
    requires Aligned(chunks)
    ensures RightAtZero(junk, chunks)
  {
    if chunks != [] {
      var front, chunk := chunks[..|chunks| - 1], chunks[|chunks| - 1];
      AlignedRunWorks(junk, front);
      hide RightAtZero, PlainAfter;
      AlignedStep(junk, front, chunk);
      assert front + [chunk] == chunks;
    }
  }

  /** A chunk without an empty line, after chunks that end with their lines. */
  ghost predicate PlainAfter(read: seq<Bytes>, chunk: Bytes) {
    Plain(chunk) && Split(Flatten(read)).tail == []
  }

  lemma AlignedStep(junk: nat -> char, front: seq<Bytes>, chunk: Bytes)
    requires RightAtZero(junk, front) && PlainAfter(front, chunk)
    ensures RightAtZero(junk, front + [chunk])
  {
    hide RightAtZero, Flatten, Split, Plain;
    NextAtZeroWorksIff(junk, front);
  }
}
