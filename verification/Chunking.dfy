/** What a framer reports about a whole stream, however the stream was chunked. */
module Chunking {
  import opened Splitting
  import opened Framing

  /** The state and all records after feeding the chunks to a new framer. */
  function FeedAll(mode: Mode, max: nat, chunks: seq<Bytes>): (FramerState, seq<Record>) {
    if chunks == [] then (Empty, [])
    else
      var n := |chunks| - 1;
      var (st, out) := FeedAll(mode, max, chunks[..n]);
      var (st', more) := Fed(mode, max, st, chunks[n]);
      (st', out + more)
  }

  function Optional(record: Option<Record>): seq<Record> {
    if record.Some? then [record.value] else []
  }

  /** Feed every chunk, then flush: all records of a connection that ends cleanly. */
  function FeedAndFlush(mode: Mode, max: nat, chunks: seq<Bytes>): seq<Record> {
    var (st, out) := FeedAll(mode, max, chunks);
    out + Optional(Flushed(mode, max, st).1)
  }

  // ----- The stream-level specification ----------------------------------

  /** The record of an unterminated tail, once it is known to be too long. */
  function TooLong(max: nat, tail: Bytes): seq<Record> {
    if |tail| > max then [Clamp(max, tail)] else []
  }

  /** Records that are certain once the stream has reached `s`. */
  function Certain(sep: Bytes, max: nat, s: Bytes): seq<Record>
    requires sep != []
  {
    var c := Cut(s, sep, 0);
    ClampAll(max, c.closed) + TooLong(max, c.tail)
  }

  /** All records of the complete stream `s`: each piece clamped, a non-empty tail once. */
  function Records(sep: Bytes, max: nat, s: Bytes): seq<Record>
    requires sep != []
  {
    var c := Cut(s, sep, 0);
    ClampAll(max, c.closed) + if c.tail == [] then [] else [Clamp(max, c.tail)]
  }

  // ----- The stream a framer hears ---------------------------------------

  function LastOf(s: Bytes): Byte
    requires s != []
  {
    s[|s| - 1]
  }

  /** The overflow branch has just discarded the CR of a CR LF whose LF comes now. */
  predicate LosesSeparator(mode: Mode, st: FramerState, heard: Bytes, data: Bytes) {
    mode.CrLf? && st.overflow && st.buf == [] &&
    heard != [] && LastOf(heard) == CR && data != [] && data[0] == LF
  }

  function WithoutCr(heard: Bytes): Bytes
    requires heard != []
  {
    heard[..|heard| - 1] + [0]
  }

  /** The stream with every lost CR overwritten by a zero byte. */
  function Heard(mode: Mode, max: nat, chunks: seq<Bytes>): Bytes {
    if chunks == [] then []
    else
      var n := |chunks| - 1;
      var heard := Heard(mode, max, chunks[..n]);
      if LosesSeparator(mode, FeedAll(mode, max, chunks[..n]).0, heard, chunks[n])
      then WithoutCr(heard) + chunks[n]
      else heard + chunks[n]
  }

  /** The framer's state and output agree with the specification of the heard stream. */
  ghost predicate Tracks(sep: Bytes, max: nat, heard: Bytes, st: FramerState, out: seq<Record>)
    requires sep != []
  {
    var tail := Cut(heard, sep, 0).tail;
    out == Certain(sep, max, heard) &&
    (if st.overflow then |tail| > max + |st.buf| && tail[|tail| - |st.buf|..] == st.buf
     else st.buf == tail && |tail| <= max)
  }

  lemma {:induction false} ClampAllAppend(max: nat, a: seq<Bytes>, b: seq<Bytes>)
    ensures ClampAll(max, a + b) == ClampAll(max, a) + ClampAll(max, b)
  {
    if a == [] {
      assert a + b == b;
    } else {
      ClampAllAppend(max, a[1..], b);
      assert (a + b)[1..] == a[1..] + b;
      Associative([Clamp(max, a[0])], ClampAll(max, a[1..]), ClampAll(max, b));
    }
  }

  /** A feed outside overflow. */
  lemma FeedTracks(mode: Mode, max: nat, heard: Bytes, st: FramerState, out: seq<Record>, data: Bytes)
    requires !mode.RawChunk? && data != [] && !st.overflow
    requires Tracks(Separator(mode), max, heard, st, out)
    ensures var (st', more) := Fed(mode, max, st, data);
            Tracks(Separator(mode), max, heard + data, st', out + more)
  {
    var sep := Separator(mode);
    var before, after := Cut(heard, sep, 0), Cut(st.buf + data, sep, 0);
    CutAppend(heard, data, sep, 0);
    ClampAllAppend(max, before.closed, after.closed);
    assert out == ClampAll(max, before.closed);
    Associative(out, ClampAll(max, after.closed), TooLong(max, after.tail));
  }

  lemma {:induction false} TailIsSuffix(s: Bytes, sep: Bytes, start: nat)
    requires sep != [] && start <= |s|
    ensures var tail := Cut(s, sep, start).tail;
            |tail| <= |s| - start && s[|s| - |tail|..] == tail
    decreases |s| - start
  {
    var i := Find(s, sep, start);
    if i < 0 {
      assert |s| - |s[start..]| == start;
    } else {
      TailIsSuffix(s, sep, i + |sep|);
    }
  }

  /** A separator that begins before the buffer and ends after it has lost its CR. */
  lemma StraddleLoses(mode: Mode, heard: Bytes, st: FramerState, data: Bytes, p: Bytes, i: nat)
    requires !mode.RawChunk? && data != [] && st.overflow && p != []
    requires p + st.buf == Cut(heard, Separator(mode), 0).tail
    requires i < |p| && i + |Separator(mode)| > |p + st.buf|
    requires OccursAt((p + st.buf) + data, Separator(mode), i)
    ensures LosesSeparator(mode, st, heard, data)
  {
    TailIsSuffix(heard, Separator(mode), 0);
    assert st.buf == [] && p + st.buf == p;
    StraddleBytes(p, data, i);
    LastOfSuffix(heard, p);
  }

  lemma LastOfSuffix(s: Bytes, p: Bytes)
    requires p != [] && |p| <= |s| && s[|s| - |p|..] == p
    ensures LastOf(s) == LastOf(p)
  {
  }

  /** No separator begins in the bytes discarded by an overflow. */
  lemma NothingStraddles(mode: Mode, max: nat, heard: Bytes, st: FramerState, data: Bytes, p: Bytes)
    requires !mode.RawChunk? && data != [] && st.overflow && p != []
    requires p + st.buf == Cut(heard, Separator(mode), 0).tail
    requires !LosesSeparator(mode, st, heard, data)
    ensures forall i: nat | i < |p| :: !OccursAt(p + (st.buf + data), Separator(mode), i)
  {
    var sep, tail := Separator(mode), p + st.buf;
    TailFree(heard, sep, 0);
    Associative(p, st.buf, data);
    forall i: nat | i < |p| ensures !OccursAt(tail + data, sep, i) {
      if i + |sep| <= |tail| {
        OccursInPrefix(tail, data, sep, i);
      } else if OccursAt(tail + data, sep, i) {
        StraddleLoses(mode, heard, st, data, p, i);
      }
    }
  }

  lemma StraddleBytes(p: Bytes, data: Bytes, i: nat)
    requires data != [] && i == |p| - 1
    ensures OccursAt(p + data, [CR, LF], i) ==> LastOf(p) == CR && data[0] == LF
  {
    if OccursAt(p + data, [CR, LF], i) {
      assert (p + data)[i..i + 2][0] == LastOf(p) && (p + data)[i..i + 2][1] == data[0];
    }
  }

  lemma ClampPrefix(max: nat, p: Bytes, x: Bytes)
    requires |p| >= max && |p + x| > max
    ensures Clamp(max, p + x) == Record(p[..max], true)
  {
    assert (p + x)[..max] == p[..max];
  }

  /** The bytes that an overflow has discarded from the current tail. */
  function Discarded(tail: Bytes, st: FramerState): Bytes
    requires |st.buf| <= |tail|
  {
    tail[..|tail| - |st.buf|]
  }

  lemma SwallowedCut(mode: Mode, max: nat, heard: Bytes, st: FramerState, out: seq<Record>, data: Bytes)
    requires !mode.RawChunk? && data != [] && st.overflow
    requires Tracks(Separator(mode), max, heard, st, out)
    requires !LosesSeparator(mode, st, heard, data)
    ensures var sep := Separator(mode);
            var before := Cut(heard, sep, 0);
            var p := Discarded(before.tail, st);
            p + st.buf == before.tail && |p| > max &&
            Cut(heard + data, sep, 0) == Joined(before, Prepend(p, Cut(st.buf + data, sep, 0)))
  {
    var sep := Separator(mode);
    var tail := Cut(heard, sep, 0).tail;
    var p := Discarded(tail, st);
    assert p + st.buf == tail;
    NothingStraddles(mode, max, heard, st, data, p);
    CutPrepend(p, st.buf + data, sep);
    Associative(p, st.buf, data);
    CutAppend(heard, data, sep, 0);
  }

  lemma SwallowSum(a: seq<Record>, x: Record, b: seq<Record>, c: seq<Record>)
    ensures (a + [x]) + (b + c) == (a + ([x] + b)) + c
  {
  }

  /** A feed that stays in overflow. */
  lemma SwallowAll(mode: Mode, max: nat, heard: Bytes, st: FramerState, out: seq<Record>, data: Bytes)
    requires !mode.RawChunk? && data != [] && st.overflow
    requires Tracks(Separator(mode), max, heard, st, out)
    requires !LosesSeparator(mode, st, heard, data)
    requires Cut(st.buf + data, Separator(mode), 0).closed == []
    ensures var (st', more) := Fed(mode, max, st, data);
            Tracks(Separator(mode), max, heard + data, st', out + more)
  {
    var sep := Separator(mode);
    var before, q := Cut(heard, sep, 0), st.buf + data;
    var p := Discarded(before.tail, st);
    SwallowedCut(mode, max, heard, st, out, data);
    assert Cut(q, sep, 0).tail == q by {
      assert q[0..] == q;
    }
    ClampPrefix(max, p, st.buf);
    ClampPrefix(max, p, q);
    assert before.closed + [] == before.closed;
    assert (p + q)[|p|..] == q;
  }

  /** A feed that ends the overflow. */
  lemma SwallowFirst(mode: Mode, max: nat, heard: Bytes, st: FramerState, out: seq<Record>, data: Bytes)
    requires !mode.RawChunk? && data != [] && st.overflow
    requires Tracks(Separator(mode), max, heard, st, out)
    requires !LosesSeparator(mode, st, heard, data)
    requires Cut(st.buf + data, Separator(mode), 0).closed != []
    ensures var (st', more) := Fed(mode, max, st, data);
            Tracks(Separator(mode), max, heard + data, st', out + more)
  {
    var sep := Separator(mode);
    var before, after := Cut(heard, sep, 0), Cut(st.buf + data, sep, 0);
    var p, first, rest := Discarded(before.tail, st), after.closed[0], after.closed[1..];
    SwallowedCut(mode, max, heard, st, out, data);
    ClampPrefix(max, p, st.buf);
    ClampPrefix(max, p, first);
    ClampAllAppend(max, before.closed, [p + first] + rest);
    HeadTail(p + first, rest);
    SwallowSum(ClampAll(max, before.closed), Clamp(max, before.tail), ClampAll(max, rest), TooLong(max, after.tail));
  }

  lemma CrPending(g: Bytes, b: Byte, sep: Bytes)
    requires sep == [CR, LF] && b != LF
    ensures Cut(g + [b], sep, 0) == Pieces(Cut(g, sep, 0).closed, Cut(g, sep, 0).tail + [b])
  {
    var tail := Cut(g, sep, 0).tail;
    CutAppend(g, [b], sep, 0);
    TailFree(g, sep, 0);
    forall i: nat | i <= |tail + [b]| ensures !OccursAt(tail + [b], sep, i) {
      if i + 2 <= |tail| {
        OccursInPrefix(tail, [b], sep, i);
      } else if i + 2 == |tail + [b]| {
        assert (tail + [b])[i..i + 2][1] == b;
      }
    }
    FreeCut(tail + [b], sep);
    assert Cut(g, sep, 0).closed + [] == Cut(g, sep, 0).closed;
  }

  /** Overwriting the lost CR changes nothing that was reported. */
  lemma OverwriteTracks(max: nat, heard: Bytes, st: FramerState, out: seq<Record>, data: Bytes)
    requires LosesSeparator(CrLf, st, heard, data)
    requires Tracks([CR, LF], max, heard, st, out)
    ensures Tracks([CR, LF], max, WithoutCr(heard), st, out)
  {
    var g := heard[..|heard| - 1];
    assert heard == g + [CR];
    CrPending(g, CR, [CR, LF]);
    CrPending(g, 0, [CR, LF]);
    var w := Cut(g, [CR, LF], 0).tail;
    ClampPrefix(max, w, [CR]);
    ClampPrefix(max, w, [0]);
  }

  lemma FedTracks(mode: Mode, max: nat, heard: Bytes, st: FramerState, out: seq<Record>, data: Bytes)
    requires !mode.RawChunk?
    requires Tracks(Separator(mode), max, heard, st, out)
    ensures var (st', more) := Fed(mode, max, st, data);
            var heard' := if LosesSeparator(mode, st, heard, data) then WithoutCr(heard) else heard;
            Tracks(Separator(mode), max, heard' + data, st', out + more)
  {
    if data == [] {
      assert heard + data == heard && out + [] == out;
    } else if !st.overflow {
      FeedTracks(mode, max, heard, st, out, data);
    } else {
      var heard' := heard;
      if LosesSeparator(mode, st, heard, data) {
        OverwriteTracks(max, heard, st, out, data);
        heard' := WithoutCr(heard);
      }
      if Cut(st.buf + data, Separator(mode), 0).closed == [] {
        SwallowAll(mode, max, heard', st, out, data);
      } else {
        SwallowFirst(mode, max, heard', st, out, data);
      }
    }
  }

  /** After any feeds, the framer has reported exactly what is certain about the heard stream. */
  lemma {:induction false} FeedAllTracks(mode: Mode, max: nat, chunks: seq<Bytes>)
    requires !mode.RawChunk?
    ensures var (st, out) := FeedAll(mode, max, chunks);
            Tracks(Separator(mode), max, Heard(mode, max, chunks), st, out)
  {
    if chunks == [] {
      FreeCut([], Separator(mode));
    } else {
      var n := |chunks| - 1;
      var (st, out) := FeedAll(mode, max, chunks[..n]);
      FeedAllTracks(mode, max, chunks[..n]);
      FedTracks(mode, max, Heard(mode, max, chunks[..n]), st, out, chunks[n]);
    }
  }

  /** All records of a connection are those of the stream its framer heard. */
  lemma RecordsOfHeard(mode: Mode, max: nat, chunks: seq<Bytes>)
    requires !mode.RawChunk?
    ensures FeedAndFlush(mode, max, chunks) == Records(Separator(mode), max, Heard(mode, max, chunks))
  {
    FeedAllTracks(mode, max, chunks);
  }

  lemma {:induction false} ConcatLast(chunks: seq<Bytes>)
    requires chunks != []
    ensures Concat(chunks) == Concat(chunks[..|chunks| - 1]) + chunks[|chunks| - 1]
  {
    var n := |chunks| - 1;
    ConcatAppend(chunks[..n], [chunks[n]]);
    assert chunks[..n] + [chunks[n]] == chunks;
    assert Concat([chunks[n]]) == chunks[n];
  }

  lemma {:induction false} LfHeard(max: nat, chunks: seq<Bytes>)
    ensures Heard(Lf, max, chunks) == Concat(chunks)
  {
    if chunks != [] {
      LfHeard(max, chunks[..|chunks| - 1]);
      ConcatLast(chunks);
    }
  }

  /** LF framing does not depend on how the stream was chunked. */
  lemma LfChunkIndependence(max: nat, chunks: seq<Bytes>)
    ensures FeedAndFlush(Lf, max, chunks) == Records([LF], max, Concat(chunks))
  {
    RecordsOfHeard(Lf, max, chunks);
    LfHeard(max, chunks);
  }
}
