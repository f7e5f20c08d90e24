/** Bytes that make a framer report the most: the bound on a burst is reached. */
module WorstBytes {
  import opened Splitting
  import opened Framing
  import opened Chunking
  import opened CrLfChunking
  import opened FramerBudget
  import opened RoundTrip

  const X: Byte := 97

  function Xs(n: nat): Bytes {
    seq(n, _ => X)
  }

  lemma XsFree(mode: Mode, n: nat)
    requires !mode.RawChunk?
    ensures Free(Xs(n), Separator(mode), 0)
  {
    var sep := Separator(mode);
    forall i: nat | i + |sep| <= n ensures !OccursAt(Xs(n), sep, i) {
      assert Xs(n)[i..i + |sep|][0] == X;
    }
  }

  /** One more byte below the limit completes nothing. */
  lemma FedX(mode: Mode, max: nat, n: nat)
    requires !mode.RawChunk? && n < max
    ensures Fed(mode, max, FramerState(Xs(n), false), [X]) == (FramerState(Xs(n + 1), false), [])
  {
    assert Xs(n) + [X] == Xs(n + 1);
    XsFree(mode, n + 1);
    FreeCut(Xs(n + 1), Separator(mode));
  }

  lemma FedFirst(mode: Mode, max: nat)
    requires !mode.RawChunk? && max > 0
    ensures Fed(mode, max, Empty, [X]) == (FramerState(Xs(1), false), [])
  {
    assert Xs(0) == [];
    FedX(mode, max, 0);
  }

  lemma ClampOne(max: nat, raw: Bytes)
    requires |raw| <= max
    ensures ClampAll(max, [raw]) == [Record(raw, false)]
  {
    assert [raw][1..] == [];
    assert ClampAll(max, []) == [];
  }

  /** A separator, or its end, closes the line. */
  lemma FedSeparator(mode: Mode, max: nat, buf: Bytes, data: Bytes)
    requires !mode.RawChunk? && max > 0 && data != [] && buf + data == Xs(1) + Separator(mode)
    ensures Fed(mode, max, FramerState(buf, false), data) == (Empty, [Record(Xs(1), false)])
  {
    var sep := Separator(mode);
    XsFree(mode, 1);
    CutLine(mode, Xs(1), []);
    assert Xs(1) + (sep + []) == Xs(1) + sep;
    FreeCut([], sep);
    ClampOne(max, Xs(1));
  }

  lemma FedRaw(max: nat)
    requires max > 0
    ensures Fed(RawChunk, max, Empty, [X]) == (Empty, [Record(Xs(1), false)])
  {
    assert [X] == Xs(1);
  }

  // ----- CR LF byte by byte ----------------------------------------------

  lemma XCrFree()
    ensures Free(Xs(1) + [CR], CRLF, 0)
  {
    assert (Xs(1) + [CR])[0..2][0] == X;
  }

  lemma FedCr(max: nat)
    requires max >= 2
    ensures Fed(CrLf, max, FramerState(Xs(1), false), [CR]) == (FramerState(Xs(1) + [CR], false), [])
  {
    XCrFree();
    FreeCut(Xs(1) + [CR], CRLF);
  }

  /** With limit 1 the CR already overflows the buffer, ... */
  lemma FedCrOver()
    ensures Fed(CrLf, 1, FramerState(Xs(1), false), [CR]) == (FramerState([], true), [Record(Xs(1), true)])
  {
    XCrFree();
    FreeCut(Xs(1) + [CR], CRLF);
    assert (Xs(1) + [CR])[..1] == Xs(1);
    assert Clamp(1, Xs(1) + [CR]) == Record(Xs(1), true);
    assert Unswallowed(false, []) == [] && ClampAll(1, []) == [];
    assert [] + [Record(Xs(1), true)] == [Record(Xs(1), true)];
  }

  /** ... and a whole separator must follow. */
  lemma FedSwallowed(buf: Bytes, byte: Byte)
    requires (buf == [] && byte == LF) || (buf == [LF] && byte == CR)
    ensures Fed(CrLf, 1, FramerState(buf, true), [byte]) == (FramerState(buf + [byte], true), [])
  {
    var s := buf + [byte];
    assert Free(s, CRLF, 0) by {
      forall i: nat | i + 2 <= |s| ensures !OccursAt(s, CRLF, i) {
        assert s[i..i + 2][0] == LF;
      }
    }
    FreeCut(s, CRLF);
  }

  lemma FedUnswallow()
    ensures Fed(CrLf, 1, FramerState([LF, CR], true), [LF]) == (Empty, [])
  {
    assert Free([LF], CRLF, 0);
    CutLine(CrLf, [LF], []);
    assert [LF] + (CRLF + []) == [LF, CR] + [LF];
    FreeCut([], CRLF);
    assert Cut([LF, CR] + [LF], CRLF, 0) == Pieces([[LF]], []);
    assert [[LF]][1..] == [];
  }

  // ----- The worst read --------------------------------------------------

  /** `n` bytes of full lines, and the last line as far as it goes. */
  function Stream(mode: Mode, max: nat, n: nat): Bytes
    requires !mode.RawChunk?
  {
    var line := max + |Separator(mode)|;
    if n < line then Xs(n) else Xs(max) + (Separator(mode) + Stream(mode, max, n - line))
  }

  lemma {:induction false} StreamLength(mode: Mode, max: nat, n: nat)
    requires !mode.RawChunk?
    ensures |Stream(mode, max, n)| == n
  {
    if n >= max + |Separator(mode)| {
      StreamLength(mode, max, n - (max + |Separator(mode)|));
    }
  }

  /** What the pieces of a stream emit. */
  function Emitted(mode: Mode, max: nat, s: Bytes): nat
    requires !mode.RawChunk?
  {
    Emission(max, Cut(s, Separator(mode), 0))
  }

  lemma {:induction false} StreamEmission(mode: Mode, max: nat, n: nat)
    requires !mode.RawChunk?
    ensures Emitted(mode, max, Stream(mode, max, n)) == Carried(max, |Separator(mode)|, n)
  {
    var line := max + |Separator(mode)|;
    if n < line {
      LastEmission(mode, max, n);
    } else {
      StreamEmission(mode, max, n - line);
      LineEmission(mode, max, Stream(mode, max, n - line));
    }
  }

  lemma LastEmission(mode: Mode, max: nat, n: nat)
    requires !mode.RawChunk?
    ensures Emitted(mode, max, Xs(n)) == Min(n, max)
  {
    XsFree(mode, n);
    FreeCut(Xs(n), Separator(mode));
  }

  /** A full line in front emits its payload. */
  lemma LineEmission(mode: Mode, max: nat, rest: Bytes)
    requires !mode.RawChunk?
    ensures var s := Xs(max) + (Separator(mode) + rest);
            Cut(s, Separator(mode), 0).closed != [] && Emitted(mode, max, s) == max + Emitted(mode, max, rest)
  {
    XsFree(mode, max);
    CutLine(mode, Xs(max), rest);
    FrontEmission(max, Cut(rest, Separator(mode), 0));
  }

  lemma FrontEmission(max: nat, rest: Pieces)
    ensures Emission(max, Front(Xs(max), rest)) == max + Emission(max, rest)
  {
    FrontParts(Xs(max), rest);
    EmissionMore(max, Front(Xs(max), rest));
  }

  /** A full buffer, for framings with a separator. */
  function Primed(mode: Mode, max: nat): FramerState {
    if mode.RawChunk? then Empty else FramerState(Xs(max), false)
  }

  /** The worst read of `n` bytes for a primed framer. */
  function Worst(mode: Mode, max: nat, n: nat): Bytes {
    if mode.RawChunk? || n < |Separator(mode)| then Xs(n)
    else Separator(mode) + Stream(mode, max, n - |Separator(mode)|)
  }

  lemma WorstShort(mode: Mode, max: nat, n: nat)
    requires !mode.RawChunk? && 0 < n < |Separator(mode)|
    ensures var c := Cut(Xs(max) + Xs(n), Separator(mode), 0);
            c.closed == [] && Emission(max, c) == max
  {
    assert Xs(max) + Xs(n) == Xs(max + n);
    XsFree(mode, max + n);
    FreeCut(Xs(max + n), Separator(mode));
  }

  lemma WorstLong(mode: Mode, max: nat, n: nat)
    requires !mode.RawChunk? && n >= |Separator(mode)|
    ensures Cut(Xs(max) + Worst(mode, max, n), Separator(mode), 0).closed != []
    ensures Emitted(mode, max, Xs(max) + Worst(mode, max, n)) == Burst(mode, max, n)
  {
    var more := n - |Separator(mode)|;
    LineEmission(mode, max, Stream(mode, max, more));
    StreamEmission(mode, max, more);
  }

  lemma WorstLength(mode: Mode, max: nat, n: nat)
    ensures |Worst(mode, max, n)| == n
  {
    if !mode.RawChunk? && n >= |Separator(mode)| {
      StreamLength(mode, max, n - |Separator(mode)|);
    }
  }

  /** Such a read, and a flush after it, report a whole burst. */
  lemma WorstBurst(mode: Mode, max: nat, n: nat)
    requires max > 0 && n > 0
    ensures |Worst(mode, max, n)| == n
    ensures var (st, out) := Fed(mode, max, Primed(mode, max), Worst(mode, max, n));
            TotalPayload(out) + TotalPayload(Optional(Flushed(mode, max, st).1)) == Burst(mode, max, n)
  {
    WorstLength(mode, max, n);
    if mode.RawChunk? {
      OnePayload(Clamp(max, Xs(n)));
    } else {
      XsFree(mode, max);
      if n < |Separator(mode)| {
        WorstShort(mode, max, n);
      } else {
        WorstLong(mode, max, n);
      }
      FeedEmission(mode, max, Primed(mode, max), Worst(mode, max, n));
    }
  }
}
