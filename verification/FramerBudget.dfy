/** How many payload bytes one read can turn into records. */
module FramerBudget {
  import opened Splitting
  import opened Framing
  import opened Chunking

  function TotalPayload(records: seq<Record>): nat {
    if records == [] then 0 else |records[0].payload| + TotalPayload(records[1..])
  }

  lemma {:induction false} TotalPayloadAppend(a: seq<Record>, b: seq<Record>)
    ensures TotalPayload(a + b) == TotalPayload(a) + TotalPayload(b)
  {
    if a == [] {
      assert a + b == b;
    } else {
      TotalPayloadAppend(a[1..], b);
      assert (a + b)[0] == a[0] && (a + b)[1..] == a[1..] + b;
    }
  }

  /** What holds of a framer between two calls. */
  ghost predicate Sound(mode: Mode, max: nat, st: FramerState) {
    !mode.RawChunk? ==> Free(st.buf, Separator(mode), 0) && (!st.overflow ==> |st.buf| <= max)
  }

  ghost predicate AllWithin(max: nat, records: seq<Record>) {
    forall r | r in records :: |r.payload| <= max
  }

  /** The first separator reaches past the buffer, so what follows it is new data only. */
  lemma FirstCutPastBuffer(mode: Mode, buf: Bytes, data: Bytes)
    requires !mode.RawChunk? && Free(buf, Separator(mode), 0)
    requires Find(buf + data, Separator(mode), 0) >= 0
    ensures Find(buf + data, Separator(mode), 0) + |Separator(mode)| > |buf|
  {
    var sep, i := Separator(mode), Find(buf + data, Separator(mode), 0);
    if i + |sep| <= |buf| {
      OccursInPrefix(buf, data, sep, i);
    }
  }

  lemma ClosedFound(s: Bytes, sep: Bytes)
    requires sep != [] && Cut(s, sep, 0).closed != []
    ensures Find(s, sep, 0) >= 0 && Cut(s, sep, 0).closed[0] == s[0..Find(s, sep, 0)]
  {
  }

  lemma ClosedRest(s: Bytes, sep: Bytes)
    requires sep != [] && Cut(s, sep, 0).closed != []
    ensures var i, c := Find(s, sep, 0), Cut(s, sep, 0);
            i >= 0 && c.closed[0] == s[0..i] && Cut(s, sep, i + |sep|) == Rest(c)
  {
    ClosedFound(s, sep);
    var i := Find(s, sep, 0);
    var c, rest := Cut(s, sep, 0), Cut(s, sep, i + |sep|);
    assert c == Front(s[0..i], rest);
    FrontParts(s[0..i], rest);
  }

  /** How long a stream is whose pieces are these. */
  function Length(c: Pieces, sepLength: nat): nat
    decreases |c.closed|
  {
    if c.closed == [] then |c.tail| else |c.closed[0]| + sepLength + Length(Rest(c), sepLength)
  }

  lemma LengthFront(piece: Bytes, rest: Pieces, sepLength: nat)
    ensures Length(Front(piece, rest), sepLength) == |piece| + sepLength + Length(rest, sepLength)
  {
    FrontParts(piece, rest);
  }

  /** Cutting loses exactly the separators. */
  lemma {:induction false} PiecesLength(s: Bytes, sep: Bytes, start: nat)
    requires sep != [] && start <= |s|
    ensures Length(Cut(s, sep, start), |sep|) == |s| - start
    decreases |s| - start
  {
    var i := Find(s, sep, start);
    if i >= 0 {
      PiecesLength(s, sep, i + |sep|);
      LengthFront(s[start..i], Cut(s, sep, i + |sep|), |sep|);
    }
  }

  /** Records are no longer than the pieces they come from. */
  lemma {:induction false} PiecesBudget(max: nat, c: Pieces, sepLength: nat)
    ensures AllWithin(max, ClampAll(max, c.closed))
    ensures TotalPayload(ClampAll(max, c.closed)) + |c.tail| <= Length(c, sepLength)
    decreases |c.closed|
  {
    if c.closed != [] {
      PiecesBudget(max, Rest(c), sepLength);
      HeadTail(Clamp(max, c.closed[0]), ClampAll(max, c.closed[1..]));
    }
  }

  /** The pieces after the first one are shorter than the new data. */
  lemma AfterFirst(mode: Mode, buf: Bytes, data: Bytes)
    requires !mode.RawChunk? && Free(buf, Separator(mode), 0) && Cut(buf + data, Separator(mode), 0).closed != []
    ensures var c := Cut(buf + data, Separator(mode), 0);
            var rest := Length(Rest(c), |Separator(mode)|);
            rest < |data| && |c.closed[0]| + |Separator(mode)| + rest == |buf| + |data|
  {
    var s, sep := buf + data, Separator(mode);
    ClosedFound(s, sep);
    FirstCutPastBuffer(mode, buf, data);
    PiecesLength(s, sep, 0);
  }

  /** The records that a feed emits, without its overflow record. */
  function Complete(mode: Mode, max: nat, st: FramerState, data: Bytes): seq<Record>
    requires !mode.RawChunk?
  {
    ClampAll(max, Unswallowed(st.overflow, Cut(st.buf + data, Separator(mode), 0).closed))
  }

  lemma CompleteBudget(mode: Mode, max: nat, st: FramerState, data: Bytes)
    requires !mode.RawChunk? && Sound(mode, max, st)
    ensures var c := Cut(st.buf + data, Separator(mode), 0);
            AllWithin(max, Complete(mode, max, st, data)) &&
            TotalPayload(Complete(mode, max, st, data)) + |c.tail| <= |st.buf| + |data| &&
            (st.overflow && c.closed != [] ==>
              TotalPayload(Complete(mode, max, st, data)) + |c.tail| <= |data|)
  {
    var c := Cut(st.buf + data, Separator(mode), 0);
    if st.overflow && c.closed != [] {
      AfterFirst(mode, st.buf, data);
      PiecesBudget(max, Rest(c), |Separator(mode)|);
    } else {
      PiecesLength(st.buf + data, Separator(mode), 0);
      PiecesBudget(max, c, |Separator(mode)|);
    }
  }

  lemma OnePayload(record: Record)
    ensures TotalPayload([record]) == |record.payload|
  {
  }

  /** The payload of a flush: the buffer, within the limit, unless it was swallowed. */
  lemma FlushBudget(mode: Mode, max: nat, st: FramerState)
    requires Sound(mode, max, st)
    ensures var (st', record) := Flushed(mode, max, st);
            Sound(mode, max, st') && AllWithin(max, Optional(record)) &&
            TotalPayload(Optional(record)) ==
              if mode.RawChunk? || st.overflow then 0 else |st.buf|
  {
  }

  /**
   One feed: the buffer stays bounded outside overflow and free of separators, every payload
   is within the limit, no byte is invented, and the records of the feed and of a flush right
   after it fit in `max + |data|` bytes.
   */
  lemma FeedBudget(mode: Mode, max: nat, st: FramerState, data: Bytes)
    requires Sound(mode, max, st)
    ensures var (st', out) := Fed(mode, max, st, data);
            Sound(mode, max, st') && AllWithin(max, out) &&
            (!mode.RawChunk? ==> TotalPayload(out) + |st'.buf| <= |st.buf| + |data|) &&
            TotalPayload(out) + TotalPayload(Optional(Flushed(mode, max, st').1)) <= max + |data|
  {
    var (st', out) := Fed(mode, max, st, data);
    if mode.RawChunk? && data != [] {
      OnePayload(out[0]);
    } else if data != [] {
      var c := Cut(st.buf + data, Separator(mode), 0);
      var complete := Complete(mode, max, st, data);
      CompleteBudget(mode, max, st, data);
      TailFree(st.buf + data, Separator(mode), 0);
      if !(st.overflow && c.closed == []) && |c.tail| > max {
        TotalPayloadAppend(complete, [Clamp(max, c.tail)]);
        OnePayload(Clamp(max, c.tail));
      }
    }
    FlushBudget(mode, max, st');
  }

  // ----- The exact budget ------------------------------------------------

  function Min(a: nat, b: nat): nat {
    if a < b then a else b
  }

  /** The most payload that `n` bytes can carry: full lines with their separators, and a last line. */
  function Carried(max: nat, sepLength: nat, n: nat): nat
    requires sepLength > 0
  {
    if n < max + sepLength then Min(n, max) else max + Carried(max, sepLength, n - (max + sepLength))
  }

  lemma {:induction false} CarriedStep(max: nat, sepLength: nat, n: nat)
    requires sepLength > 0
    ensures Carried(max, sepLength, n) <= Carried(max, sepLength, n + 1) <= Carried(max, sepLength, n) + 1
  {
    if n >= max + sepLength {
      CarriedStep(max, sepLength, n - (max + sepLength));
    }
  }

  lemma {:induction false} CarriedMonotone(max: nat, sepLength: nat, n: nat, m: nat)
    requires sepLength > 0 && n <= m
    ensures Carried(max, sepLength, n) <= Carried(max, sepLength, m)
    decreases m - n
  {
    if n < m {
      CarriedStep(max, sepLength, n);
      CarriedMonotone(max, sepLength, n + 1, m);
    }
  }

  /** Another piece, with its separator, carries no more than that many more bytes do. */
  lemma {:induction false} CarriedPiece(max: nat, sepLength: nat, n: nat, piece: nat)
    requires sepLength > 0
    ensures Carried(max, sepLength, n) + Min(piece, max) <= Carried(max, sepLength, n + piece + sepLength)
  {
    if n >= max + sepLength {
      CarriedPiece(max, sepLength, n - (max + sepLength), piece);
    } else if piece >= max {
      CarriedMonotone(max, sepLength, n, n + piece - max);
    }
  }

  /** The payload of clean pieces, the tail being reported at once or by the flush. */
  function Emission(max: nat, c: Pieces): nat {
    TotalPayload(ClampAll(max, c.closed)) + Min(|c.tail|, max)
  }

  lemma EmissionMore(max: nat, c: Pieces)
    requires c.closed != []
    ensures Emission(max, c) == Min(|c.closed[0]|, max) + Emission(max, Rest(c))
  {
    HeadTail(Clamp(max, c.closed[0]), ClampAll(max, c.closed[1..]));
  }

  lemma {:induction false} EmissionCarried(max: nat, c: Pieces, sepLength: nat)
    requires sepLength > 0
    ensures Emission(max, c) <= Carried(max, sepLength, Length(c, sepLength))
    decreases |c.closed|
  {
    if c.closed != [] {
      EmissionMore(max, c);
      EmissionCarried(max, Rest(c), sepLength);
      CarriedPiece(max, sepLength, Length(Rest(c), sepLength), |c.closed[0]|);
    }
  }

  /** The pieces that are reported: the first one is not if it ends a swallowed line. */
  function Clean(overflow: bool, c: Pieces): Pieces {
    Pieces(Unswallowed(overflow, c.closed), c.tail)
  }

  /** What a feed and a flush after it report is what its pieces, but for a swallowed one, emit. */
  lemma FeedEmission(mode: Mode, max: nat, st: FramerState, data: Bytes)
    requires !mode.RawChunk? && Sound(mode, max, st) && data != []
    ensures var (st', out) := Fed(mode, max, st, data);
            var c := Cut(st.buf + data, Separator(mode), 0);
            TotalPayload(out) + TotalPayload(Optional(Flushed(mode, max, st').1)) ==
              if st.overflow && c.closed == [] then 0
              else Emission(max, Clean(st.overflow, c))
  {
    var (st', out) := Fed(mode, max, st, data);
    var c := Cut(st.buf + data, Separator(mode), 0);
    FeedBudget(mode, max, st, data);
    FlushBudget(mode, max, st');
    if !(st.overflow && c.closed == []) && |c.tail| > max {
      TotalPayloadAppend(Complete(mode, max, st, data), [Clamp(max, c.tail)]);
      OnePayload(Clamp(max, c.tail));
    }
  }

  /** The most payload that one read of at most `chunk` bytes, and a flush after it, can report. */
  function Burst(mode: Mode, max: nat, chunk: nat): nat {
    if mode.RawChunk? then Min(max, chunk)
    else
      var sepLength := |Separator(mode)|;
      if chunk < sepLength then max else max + Carried(max, sepLength, chunk - sepLength)
  }

  lemma BurstMonotone(mode: Mode, max: nat, n: nat, m: nat)
    requires n <= m
    ensures Burst(mode, max, n) <= Burst(mode, max, m)
  {
    if !mode.RawChunk? && n >= |Separator(mode)| {
      CarriedMonotone(max, |Separator(mode)|, n - |Separator(mode)|, m - |Separator(mode)|);
    }
  }

  /** A first piece and `rest` bytes after it, when the whole separator is new data. */
  lemma WholeSeparator(max: nat, sepLength: nat, first: nat, rest: nat, chunk: nat)
    requires sepLength > 0 && rest + sepLength <= chunk
    ensures Min(first, max) + Carried(max, sepLength, rest) <= max + Carried(max, sepLength, chunk - sepLength)
  {
    CarriedMonotone(max, sepLength, rest, chunk - sepLength);
  }

  /** And when the buffer ends in the first half of a two-byte separator. */
  lemma HalfSeparator(max: nat, first: nat, chunk: nat)
    requires first < max && chunk > 0
    ensures first + Carried(max, 2, chunk - 1) <= if chunk < 2 then max else max + Carried(max, 2, chunk - 2)
  {
    if chunk >= 2 {
      CarriedStep(max, 2, chunk - 2);
    }
  }

  lemma FirstAndRest(max: nat, sepLength: nat, first: nat, rest: nat, buffer: nat, chunk: nat, overflow: bool)
    requires 1 <= sepLength <= 2 && max > 0 && rest < chunk && first + sepLength + rest == buffer + chunk
    requires !overflow ==> buffer <= max
    ensures (if overflow then 0 else Min(first, max)) + Carried(max, sepLength, rest)
         <= if chunk < sepLength then max else max + Carried(max, sepLength, chunk - sepLength)
  {
    if rest + sepLength <= chunk {
      WholeSeparator(max, sepLength, first, rest, chunk);
    } else {
      HalfSeparator(max, if overflow then 0 else first, chunk);
    }
  }

  lemma CleanEmission(max: nat, overflow: bool, c: Pieces, sepLength: nat)
    requires c.closed != [] && sepLength > 0
    ensures Emission(max, Clean(overflow, c))
         <= (if overflow then 0 else Min(|c.closed[0]|, max)) + Carried(max, sepLength, Length(Rest(c), sepLength))
  {
    EmissionMore(max, c);
    EmissionCarried(max, Rest(c), sepLength);
    assert Clean(overflow, c) == if overflow then Rest(c) else c;
  }

  /** What the pieces of a read emit, but for a swallowed one, when one is closed. */
  lemma ClosedBurst(mode: Mode, max: nat, overflow: bool, c: Pieces, buffer: nat, chunk: nat)
    requires !mode.RawChunk? && max > 0 && c.closed != [] && (!overflow ==> buffer <= max)
    requires var rest, sepLength := Length(Rest(c), |Separator(mode)|), |Separator(mode)|;
             rest < chunk && |c.closed[0]| + sepLength + rest == buffer + chunk
    ensures Emission(max, Clean(overflow, c)) <= Burst(mode, max, chunk)
  {
    var sepLength := |Separator(mode)|;
    CleanEmission(max, overflow, c, sepLength);
    FirstAndRest(max, sepLength, |c.closed[0]|, Length(Rest(c), sepLength), buffer, chunk, overflow);
  }

  /** One read, and a flush after it, report at most a burst. */
  lemma ReadBurst(mode: Mode, max: nat, st: FramerState, data: Bytes)
    requires Sound(mode, max, st) && data != [] && max > 0
    ensures var (st', out) := Fed(mode, max, st, data);
            TotalPayload(out) + TotalPayload(Optional(Flushed(mode, max, st').1)) <= Burst(mode, max, |data|)
  {
    if mode.RawChunk? {
      OnePayload(Clamp(max, data));
    } else {
      FeedEmission(mode, max, st, data);
      var c := Cut(st.buf + data, Separator(mode), 0);
      if c.closed != [] {
        AfterFirst(mode, st.buf, data);
        ClosedBurst(mode, max, st.overflow, c, |st.buf|, |data|);
      }
    }
  }
}
