/**
 CR LF framing depends on the chunking: when an overflow clears a buffer that ends in CR and
 the next byte is LF, half of a separator is thrown away.  This module counts those losses and
 says exactly when they show in the records.
 */
module CrLfChunking {
  import opened Splitting
  import opened Framing
  import opened Chunking

  const CRLF: Bytes := [CR, LF]

  /** The next chunk completes a separator whose CR is already gone. */
  predicate Loses(max: nat, earlier: seq<Bytes>, data: Bytes) {
    LosesSeparator(CrLf, FeedAll(CrLf, max, earlier).0, Heard(CrLf, max, earlier), data)
  }

  /** How many separators the overflow branch destroyed. */
  function Lost(max: nat, chunks: seq<Bytes>): nat {
    if chunks == [] then 0
    else
      var n := |chunks| - 1;
      Lost(max, chunks[..n]) + if Loses(max, chunks[..n], chunks[n]) then 1 else 0
  }

  /** The stream ends with a destroyed separator. */
  predicate EndsLost(max: nat, chunks: seq<Bytes>) {
    chunks != [] &&
    var n := |chunks| - 1;
    if chunks[n] == [] then EndsLost(max, chunks[..n])
    else chunks[n] == [LF] && Loses(max, chunks[..n], chunks[n])
  }

  /** The length of the last record that a separator closes. */
  function LastClosedLength(s: Bytes): nat {
    var closed := Cut(s, CRLF, 0).closed;
    if closed == [] then 0 else |closed[|closed| - 1]|
  }

  // ----- The true stream beside the heard stream -------------------------

  /** The bytes of the heard tail that lie before the true tail. */
  ghost predicate Overhang(x: Bytes, s: Bytes, h: Bytes) {
    x + Cut(s, CRLF, 0).tail == Cut(h, CRLF, 0).tail && (x == [] || LastOf(x) == LF)
  }

  ghost predicate Beside(max: nat, s: Bytes, h: Bytes, lost: nat, x: Bytes) {
    Overhang(x, s, h) &&
    |Cut(s, CRLF, 0).closed| == |Cut(h, CRLF, 0).closed| + lost &&
    (lost == 0 ==> s == h) &&
    (lost == 1 && x != [] ==>
      |x| >= max + 2 && Cut(s, CRLF, 0).closed == Cut(h, CRLF, 0).closed + [x[..|x| - 2]])
  }

  lemma OverhangFree(x: Bytes, s: Bytes, h: Bytes, data: Bytes)
    requires Overhang(x, s, h)
    ensures forall i: nat | i < |x| :: !OccursAt(x + (Cut(s, CRLF, 0).tail + data), CRLF, i)
  {
    var t := Cut(s, CRLF, 0).tail;
    TailFree(h, CRLF, 0);
    Associative(x, t, data);
    forall i: nat | i < |x| ensures !OccursAt((x + t) + data, CRLF, i) {
      if i + 2 <= |x + t| {
        OccursInPrefix(x + t, data, CRLF, i);
      } else if i + 2 <= |(x + t) + data| {
        assert ((x + t) + data)[i..i + 2][0] == LastOf(x);
      }
    }
  }

  /** More bytes keep the two streams side by side. */
  lemma BesideMore(max: nat, s: Bytes, h: Bytes, lost: nat, x: Bytes, data: Bytes)
    requires Beside(max, s, h, lost, x)
    ensures var x' := if Cut(Cut(s, CRLF, 0).tail + data, CRLF, 0).closed == [] then x else [];
            Beside(max, s + data, h + data, lost, x')
  {
    var cs, ch := Cut(s, CRLF, 0), Cut(h, CRLF, 0);
    var after := Cut(cs.tail + data, CRLF, 0);
    CutAppend(s, data, CRLF, 0);
    CutAppend(h, data, CRLF, 0);
    OverhangFree(x, s, h, data);
    CutPrepend(x, cs.tail + data, CRLF);
    Associative(x, cs.tail, data);
    assert Cut(ch.tail + data, CRLF, 0) == Prepend(x, after);
    if after.closed == [] {
      assert cs.closed + [] == cs.closed && ch.closed + [] == ch.closed;
    }
  }

  lemma LfAfterOther(g: Bytes, b: Byte)
    requires b != CR && b != LF
    ensures var c := Cut(g, CRLF, 0);
            Cut(g + [b] + [LF], CRLF, 0) == Pieces(c.closed, c.tail + [b, LF])
  {
    CrPending(g, b, CRLF);
    var c, t := Cut(g + [b], CRLF, 0), Cut(g, CRLF, 0).tail + [b];
    CutAppend(g + [b], [LF], CRLF, 0);
    TailFree(g + [b], CRLF, 0);
    forall i: nat | i <= |t + [LF]| ensures !OccursAt(t + [LF], CRLF, i) {
      if i + 2 <= |t| {
        OccursInPrefix(t, [LF], CRLF, i);
      } else if i + 2 == |t + [LF]| {
        assert (t + [LF])[i..i + 2][0] == b;
      }
    }
    FreeCut(t + [LF], CRLF);
    assert c.closed + [] == c.closed;
    assert t + [LF] == Cut(g, CRLF, 0).tail + [b, LF];
  }

  lemma CutCrLf(w: Bytes)
    requires Free(w + [CR], CRLF, 0)
    ensures Cut(w + [CR] + [LF], CRLF, 0) == Pieces([w], [])
  {
    var t := w + [CR] + [LF];
    assert First(t, CRLF, 0, |w|) by {
      assert t[|w|..|w| + 2] == CRLF;
      forall j: nat | j < |w| ensures !OccursAt(t, CRLF, j) {
        OccursInPrefix(w + [CR], [LF], CRLF, j);
      }
    }
    FindIs(t, CRLF, 0, |w|);
    assert t[0..|w|] == w;
    assert Find(t, CRLF, |t|) == -1;
    assert t[|t|..] == [];
  }

  lemma LfAfterCr(g: Bytes)
    ensures var c := Cut(g, CRLF, 0);
            Cut(g + [CR] + [LF], CRLF, 0) == Pieces(c.closed + [c.tail], [])
  {
    CrPending(g, CR, CRLF);
    CutAppend(g + [CR], [LF], CRLF, 0);
    TailFree(g + [CR], CRLF, 0);
    CutCrLf(Cut(g, CRLF, 0).tail);
  }

  lemma LastOfAppend(x: Bytes, t: Bytes)
    requires t != []
    ensures LastOf(x + t) == LastOf(t)
  {
  }

  /** The tail of a stream, if not empty, ends with the stream's last byte. */
  lemma LastOfTail(s: Bytes)
    requires Cut(s, CRLF, 0).tail != []
    ensures s != [] && LastOf(s) == LastOf(Cut(s, CRLF, 0).tail)
  {
    TailIsSuffix(s, CRLF, 0);
    var t := Cut(s, CRLF, 0).tail;
    assert s[|s| - |t|..][|t| - 1] == LastOf(s);
  }

  lemma EndsTogether(x: Bytes, s: Bytes, h: Bytes)
    requires Overhang(x, s, h)
    requires h != [] && LastOf(h) == CR && Cut(h, CRLF, 0).tail != []
    ensures s != [] && LastOf(s) == CR
  {
    LastOfTail(h);
    var ts := Cut(s, CRLF, 0).tail;
    if ts != [] {
      LastOfAppend(x, ts);
      LastOfTail(s);
    }
  }

  /** Losing a separator: the true stream closes a record, the heard one goes on. */
  lemma BesideLost(max: nat, gs: Bytes, gh: Bytes, lost: nat, x: Bytes)
    requires Beside(max, gs + [CR], gh + [CR], lost, x)
    requires |Cut(gh + [CR], CRLF, 0).tail| > max
    ensures Cut(gs + [CR] + [LF], CRLF, 0).tail == []
    ensures var x' := Cut(gh + [0] + [LF], CRLF, 0).tail;
            x' != [] && Beside(max, gs + [CR] + [LF], gh + [0] + [LF], lost + 1, x')
  {
    CrPending(gs, CR, CRLF);
    CrPending(gh, CR, CRLF);
    LfAfterCr(gs);
    LfAfterOther(gh, 0);
    var w := Cut(gh, CRLF, 0).tail;
    if lost == 0 {
      assert gs == (gs + [CR])[..|gs|] && gh == (gh + [CR])[..|gh|];
    }
    assert (w + [0, LF])[..|w|] == w;
  }

  lemma TailGrows(s: Bytes, data: Bytes)
    ensures var after := Cut(Cut(s, CRLF, 0).tail + data, CRLF, 0);
            Cut(s + data, CRLF, 0).tail == after.tail &&
            (after.closed == [] ==> after.tail == Cut(s, CRLF, 0).tail + data)
  {
    CutAppend(s, data, CRLF, 0);
    var q := Cut(s, CRLF, 0).tail + data;
    assert q[0..] == q;
  }

  /** More bytes: only an empty chunk leaves a destroyed separator at the end. */
  lemma BesideKept(max: nat, s: Bytes, h: Bytes, lost: nat, x: Bytes, data: Bytes) returns (x': Bytes)
    requires Beside(max, s, h, lost, x)
    ensures Beside(max, s + data, h + data, lost, x')
    ensures x' != [] && Cut(s + data, CRLF, 0).tail == [] <==>
            data == [] && x != [] && Cut(s, CRLF, 0).tail == []
  {
    BesideMore(max, s, h, lost, x, data);
    TailGrows(s, data);
    x' := if Cut(Cut(s, CRLF, 0).tail + data, CRLF, 0).closed == [] then x else [];
    if data == [] {
      TailFree(s, CRLF, 0);
      FreeCut(Cut(s, CRLF, 0).tail, CRLF);
      assert Cut(s, CRLF, 0).tail + data == Cut(s, CRLF, 0).tail;
    }
  }

  lemma BesideLosing(max: nat, s: Bytes, h: Bytes, lost: nat, x: Bytes, data: Bytes) returns (x': Bytes)
    requires Beside(max, s, h, lost, x)
    requires h != [] && LastOf(h) == CR && |Cut(h, CRLF, 0).tail| > max
    requires data != [] && data[0] == LF
    ensures Beside(max, s + data, WithoutCr(h) + data, lost + 1, x')
    ensures x' != [] && Cut(s + data, CRLF, 0).tail == [] <==> data == [LF]
  {
    EndsTogether(x, s, h);
    var gs, gh, rest := s[..|s| - 1], h[..|h| - 1], data[1..];
    var s1, h1 := s + [LF], WithoutCr(h) + [LF];
    LastAfter(s);
    LastAfter(h);
    HeadFirst(data);
    BesideLost(max, gs, gh, lost, x);
    x' := BesideKept(max, s1, h1, lost + 1, Cut(h1, CRLF, 0).tail, rest);
    Associative(s, [LF], rest);
    Associative(WithoutCr(h), [LF], rest);
  }

  /** The two streams stay side by side, and every loss is counted. */
  lemma {:induction false} BesideAll(max: nat, chunks: seq<Bytes>) returns (x: Bytes)
    ensures Beside(max, Concat(chunks), Heard(CrLf, max, chunks), Lost(max, chunks), x)
    ensures x != [] && Cut(Concat(chunks), CRLF, 0).tail == [] <==> EndsLost(max, chunks)
  {
    if chunks == [] {
      FreeCut([], CRLF);
      x := [];
    } else {
      var n := |chunks| - 1;
      var earlier := chunks[..n];
      x := BesideAll(max, earlier);
      ConcatLast(chunks);
      FeedAllTracks(CrLf, max, earlier);
      if Loses(max, earlier, chunks[n]) {
        x := BesideLosing(max, Concat(earlier), Heard(CrLf, max, earlier), Lost(max, earlier), x, chunks[n]);
      } else {
        x := BesideKept(max, Concat(earlier), Heard(CrLf, max, earlier), Lost(max, earlier), x, chunks[n]);
      }
    }
  }

  // ----- When the losses show --------------------------------------------

  lemma {:induction false} ClampAllLength(max: nat, raws: seq<Bytes>)
    ensures |ClampAll(max, raws)| == |raws|
  {
    if raws != [] {
      ClampAllLength(max, raws[1..]);
    }
  }

  /** The records of the two streams agree only if no loss shows. */
  lemma RecordsAgree(max: nat, s: Bytes, h: Bytes, lost: nat, x: Bytes)
    requires Beside(max, s, h, lost, x)
    ensures Records(CRLF, max, s) == Records(CRLF, max, h) <==>
            lost == 0 ||
            (lost == 1 && x != [] && Cut(s, CRLF, 0).tail == [] && LastClosedLength(s) > max)
  {
    var cs, ch := Cut(s, CRLF, 0), Cut(h, CRLF, 0);
    ClampAllLength(max, cs.closed);
    ClampAllLength(max, ch.closed);
    if lost == 1 && x != [] && cs.tail == [] {
      assert x + cs.tail == x;
      var w := x[..|x| - 2];
      ClampAllAppend(max, ch.closed, [w]);
      var shared := ClampAll(max, ch.closed);
      assert Records(CRLF, max, s) == shared + [Clamp(max, w)];
      assert Records(CRLF, max, h) == shared + [Clamp(max, x)];
      assert (shared + [Clamp(max, w)])[|shared|] == Clamp(max, w);
      assert (shared + [Clamp(max, x)])[|shared|] == Clamp(max, x);
      assert x[..max] == w[..max];
      assert LastClosedLength(s) == |w|;
    } else if lost > 0 {
      assert cs.tail != [] ==> ch.tail != [];
      assert |Records(CRLF, max, s)| > |Records(CRLF, max, h)|;
    }
  }

  /**
   CR LF framing gives the records of the stream exactly when no separator was destroyed, or
   the only destroyed one ends the stream and its record was longer than the limit anyway.
   */
  lemma CrLfByLosses(max: nat, chunks: seq<Bytes>)
    ensures FeedAndFlush(CrLf, max, chunks) == Records(CRLF, max, Concat(chunks)) <==>
            Lost(max, chunks) == 0 ||
            (Lost(max, chunks) == 1 && EndsLost(max, chunks) && LastClosedLength(Concat(chunks)) > max)
  {
    RecordsOfHeard(CrLf, max, chunks);
    var x := BesideAll(max, chunks);
    RecordsAgree(max, Concat(chunks), Heard(CrLf, max, chunks), Lost(max, chunks), x);
  }

  /** With limit 1, the stream `aa CR LF b` cut between CR and LF loses the record `b`. */
  lemma CrLfCounterexample()
    ensures var a: Byte, b: Byte := 97, 98;
            var chunks := [[a, a, CR], [LF, b]];
            FeedAndFlush(CrLf, 1, chunks) != Records(CRLF, 1, Concat(chunks))
  {
    var a: Byte, b: Byte := 97, 98;
    var one, two := [a, a, CR], [LF, b];
    var chunks := [one, two];
    assert Free(one, CRLF, 0) by {
      assert one[0..2] == [a, a] && one[1..3] == [a, CR];
    }
    FreeCut(one, CRLF);
    assert chunks[..1] == [one] && [one][..0] == [];
    assert [] + one == one;
    assert FeedAll(CrLf, 1, [one]).0 == FramerState([], true);
    assert Heard(CrLf, 1, [one]) == one;
    assert Loses(1, [one], two) && !Loses(1, [], one);
    assert Lost(1, [one]) == 0 && Lost(1, chunks) == 1;
    assert !EndsLost(1, chunks);
    CrLfByLosses(1, chunks);
  }
}
