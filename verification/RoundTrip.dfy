/** What the sink writes in the delimited format, a framer reads back. */
module RoundTrip {
  import opened Splitting
  import opened Framing
  import opened Chunking
  import opened CrLfChunking
  import opened CutPoints
  import opened FramerBudget
  import opened Rotation
  import opened SinkSteps
  import opened SinkRuns
  import opened SinkClaims
  import opened ReceiverSteps
  import opened ReceiverPause
  import opened ReceiverCapacity
  import opened EndToEnd

  // ----- Delimited lines -------------------------------------------------

  function Lines(payloads: seq<Bytes>, sep: Bytes): seq<Bytes> {
    if payloads == [] then [] else Lines(payloads[..|payloads| - 1], sep) + [payloads[|payloads| - 1] + sep]
  }

  /** A separator after a payload without one is found right after the payload. */
  lemma SeparatorFound(mode: Mode, p: Bytes, rest: Bytes)
    requires !mode.RawChunk? && Free(p, Separator(mode), 0)
    ensures Find(p + (Separator(mode) + rest), Separator(mode), 0) == |p|
  {
    var sep := Separator(mode);
    var s := p + (sep + rest);
    assert OccursAt(s, sep, |p|);
    forall j: nat | j < |p| ensures !OccursAt(s, sep, j) {
      if j + |sep| <= |p| {
        OccursInPrefix(p, sep + rest, sep, j);
      } else {
        assert s[j..j + 2][1] == CR;
      }
    }
    FindIs(s, sep, 0, |p|);
  }

  lemma CutLine(mode: Mode, p: Bytes, rest: Bytes)
    requires !mode.RawChunk? && Free(p, Separator(mode), 0)
    ensures var c := Cut(rest, Separator(mode), 0);
            Cut(p + (Separator(mode) + rest), Separator(mode), 0) == Front(p, c)
  {
    var sep := Separator(mode);
    SeparatorFound(mode, p, rest);
    CutAfter(p, rest, sep);
    SliceFirst(p, sep + rest);
  }

  lemma CutAfter(p: Bytes, rest: Bytes, sep: Bytes)
    requires sep != []
    ensures Cut(p + (sep + rest), sep, |p| + |sep|) == Cut(rest, sep, 0)
  {
    Associative(p, sep, rest);
    CutShift(p + sep, rest, sep, 0);
  }

  lemma SliceFirst<T>(a: seq<T>, b: seq<T>)
    ensures (a + b)[0..|a|] == a
  {
  }

  ghost predicate AllFree(payloads: seq<Bytes>, sep: Bytes) {
    forall p | p in payloads :: Free(p, sep, 0)
  }

  /** Cutting delimited lines gives the payloads back. */
  lemma {:induction false} CutLines(mode: Mode, payloads: seq<Bytes>)
    requires !mode.RawChunk? && AllFree(payloads, Separator(mode))
    ensures Cut(Concat(Lines(payloads, Separator(mode))), Separator(mode), 0) == Pieces(payloads, [])
  {
    var sep := Separator(mode);
    if payloads == [] {
      FreeCut([], sep);
    } else {
      var n := |payloads| - 1;
      var p, before := payloads[n], Concat(Lines(payloads[..n], sep));
      CutLines(mode, payloads[..n]);
      ConcatAppend(Lines(payloads[..n], sep), [p + sep]);
      ConcatOne(p + sep);
      CutAppend(before, p + sep, sep, 0);
      CutLastLine(mode, p);
      LastAfter(payloads);
    }
  }

  lemma CutLastLine(mode: Mode, p: Bytes)
    requires !mode.RawChunk? && Free(p, Separator(mode), 0)
    ensures Cut([] + (p + Separator(mode)), Separator(mode), 0) == Pieces([p], [])
  {
    var sep := Separator(mode);
    CutLine(mode, p, []);
    FreeCut([], sep);
    assert [] + (p + sep) == p + (sep + []);
  }

  // ----- Reading back ----------------------------------------------------

  function Whole(payloads: seq<Bytes>): seq<Record> {
    seq(|payloads|, i requires 0 <= i < |payloads| => Record(payloads[i], false))
  }

  ghost predicate NoneLonger(payloads: seq<Bytes>, max: nat) {
    forall p | p in payloads :: |p| <= max
  }

  lemma {:induction false} ClampNone(max: nat, payloads: seq<Bytes>)
    requires NoneLonger(payloads, max)
    ensures ClampAll(max, payloads) == Whole(payloads)
  {
    if payloads != [] {
      ClampNone(max, payloads[1..]);
      assert Whole(payloads) == [Record(payloads[0], false)] + Whole(payloads[1..]);
    }
  }

  lemma RecordsOfLines(mode: Mode, max: nat, payloads: seq<Bytes>)
    requires !mode.RawChunk? && AllFree(payloads, Separator(mode)) && NoneLonger(payloads, max)
    ensures Records(Separator(mode), max, Concat(Lines(payloads, Separator(mode)))) == Whole(payloads)
  {
    CutLines(mode, payloads);
    ClampNone(max, payloads);
    assert Whole(payloads) + [] == Whole(payloads);
  }

  /** LF lines come back whole, in any chunking. */
  lemma LfReadsBack(max: nat, payloads: seq<Bytes>, chunks: seq<Bytes>)
    requires AllFree(payloads, [LF]) && NoneLonger(payloads, max)
    requires Concat(chunks) == Concat(Lines(payloads, [LF]))
    ensures FeedAndFlush(Lf, max, chunks) == Whole(payloads)
  {
    LfChunkIndependence(max, chunks);
    RecordsOfLines(Lf, max, payloads);
  }

  /** CR LF lines come back whole exactly in the chunkings without a severing cut. */
  lemma CrLfReadsBack(max: nat, payloads: seq<Bytes>, chunks: seq<Bytes>)
    requires AllFree(payloads, CRLF) && NoneLonger(payloads, max)
    requires Concat(chunks) == Concat(Lines(payloads, CRLF))
    ensures FeedAndFlush(CrLf, max, chunks) == Whole(payloads) <==> SafeCuts(max, chunks)
  {
    CrLfChunkIndependence(max, chunks);
    RecordsOfLines(CrLf, max, payloads);
    CutLines(CrLf, payloads);
  }

  /** Within a stream of lines the unterminated tail is at most a payload and a partial separator. */
  lemma TailOfPrefix(mode: Mode, payloads: seq<Bytes>, h: Bytes, r: Bytes, longest: nat)
    requires !mode.RawChunk? && AllFree(payloads, Separator(mode)) && NoneLonger(payloads, longest)
    requires h + r == Concat(Lines(payloads, Separator(mode)))
    ensures |Cut(h, Separator(mode), 0).tail| <= longest + |Separator(mode)| - 1
  {
    var sep := Separator(mode);
    var ch := Cut(h, sep, 0);
    var s := ch.tail + r;
    CutLines(mode, payloads);
    CutAppend(h, r, sep, 0);
    TailFree(h, sep, 0);
    if Cut(s, sep, 0).closed == [] {
      FreeOrCut(s, sep);
      assert s == [];
    } else {
      ClosedRest(s, sep);
      FirstCutPastBuffer(mode, ch.tail, r);
      assert payloads[|ch.closed|] == Cut(s, sep, 0).closed[0];
    }
  }

  lemma FreeOrCut(s: Bytes, sep: Bytes)
    requires sep != [] && Cut(s, sep, 0).closed == []
    ensures Cut(s, sep, 0).tail == s
  {
    assert s[0..] == s;
  }

  /** Shorter records never reach the limit, so no separator is ever destroyed. */
  lemma {:induction false} ShortLosesNothing(max: nat, payloads: seq<Bytes>, chunks: seq<Bytes>, rest: Bytes)
    requires max > 0 && AllFree(payloads, CRLF) && NoneLonger(payloads, max - 1)
    requires Concat(chunks) + rest == Concat(Lines(payloads, CRLF))
    ensures Lost(max, chunks) == 0 && Heard(CrLf, max, chunks) == Concat(chunks)
  {
    if chunks != [] {
      var n := |chunks| - 1;
      ConcatLast(chunks);
      Associative(Concat(chunks[..n]), chunks[n], rest);
      ShortLosesNothing(max, payloads, chunks[..n], chunks[n] + rest);
      FeedAllTracks(CrLf, max, chunks[..n]);
      TailOfPrefix(CrLf, payloads, Concat(chunks[..n]), chunks[n] + rest, max - 1);
    }
  }

  /** So CR LF lines below the limit come back whole, in any chunking. */
  lemma ShortReadsBack(max: nat, payloads: seq<Bytes>, chunks: seq<Bytes>)
    requires max > 0 && AllFree(payloads, CRLF) && NoneLonger(payloads, max - 1)
    requires Concat(chunks) == Concat(Lines(payloads, CRLF))
    ensures FeedAndFlush(CrLf, max, chunks) == Whole(payloads)
  {
    assert Concat(chunks) + [] == Concat(chunks);
    ShortLosesNothing(max, payloads, chunks, []);
    LostIffSevered(max, chunks);
    CrLfReadsBack(max, payloads, chunks);
  }

  // ----- The retained files ----------------------------------------------

  /** The payloads of the records written to `path`, in order. */
  function PayloadsTo(path: string, configs: seq<Config>, done: seq<Outcome>): seq<Bytes>
    requires forall o | o in done :: 0 <= o.epoch < |configs|
  {
    if done == [] then []
    else
      var n := |done| - 1;
      PayloadsTo(path, configs, done[..n]) +
      if done[n].written.Some? && configs[done[n].epoch].Target() == Some(path) then [done[n].item.record.payload] else []
  }

  /** Records go to `path` in the delimited format with one separator. */
  ghost predicate OneLayout(path: string, configs: seq<Config>, sep: Bytes) {
    forall c | c in configs && c.Target() == Some(path) :: c.format == Delimited && c.separator == sep
  }

  lemma {:induction false} BlobsAreLines(path: string, configs: seq<Config>, done: seq<Outcome>, sep: Bytes)
    requires forall o | o in done :: 0 <= o.epoch < |configs| && Faithful(o, configs[o.epoch])
    requires OneLayout(path, configs, sep)
    ensures BlobsTo(path, configs, done) == Lines(PayloadsTo(path, configs, done), sep)
  {
    if done != [] {
      var m := |done| - 1;
      var o, earlier := done[m], PayloadsTo(path, configs, done[..m]);
      BlobsAreLines(path, configs, done[..m], sep);
      if o.written.Some? && configs[o.epoch].Target() == Some(path) {
        assert (earlier + [o.item.record.payload])[..|earlier|] == earlier;
      } else {
        assert BlobsTo(path, configs, done[..m]) + [] == BlobsTo(path, configs, done[..m]);
        assert earlier + [] == earlier;
      }
    }
  }

  lemma {:induction false} LinesAt(payloads: seq<Bytes>, sep: Bytes)
    ensures |Lines(payloads, sep)| == |payloads|
    ensures forall i | 0 <= i < |payloads| :: Lines(payloads, sep)[i] == payloads[i] + sep
  {
    if payloads != [] {
      LinesAt(payloads[..|payloads| - 1], sep);
    }
  }

  lemma LinesSuffix(payloads: seq<Bytes>, sep: Bytes, k: nat)
    requires k <= |payloads|
    ensures k <= |Lines(payloads, sep)| && Lines(payloads, sep)[k..] == Lines(payloads[k..], sep)
  {
    LinesAt(payloads, sep);
    LinesAt(payloads[k..], sep);
  }

  /** The payloads of several files, one after another. */
  function Flat(files: seq<seq<Bytes>>): seq<Bytes> {
    if files == [] then [] else files[0] + Flat(files[1..])
  }

  /** Each file consists of lines with these payloads. */
  ghost predicate HoldLines(files: seq<Bytes>, payloads: seq<seq<Bytes>>, sep: Bytes) {
    |files| == |payloads| && forall i | 0 <= i < |files| :: files[i] == Concat(Lines(payloads[i], sep))
  }

  /** The files that `path` has before the run, oldest first, consist of lines with these payloads. */
  ghost predicate BeganWith(disk: Disk, path: string, n: nat, payloads: seq<seq<Bytes>>, sep: Bytes) {
    HoldLines(InitialFiles(Opened(disk, path), n), payloads, sep)
  }

  lemma LinesAppend(a: seq<Bytes>, b: seq<Bytes>, sep: Bytes)
    ensures Lines(a + b, sep) == Lines(a, sep) + Lines(b, sep)
  {
    LinesAt(a, sep);
    LinesAt(b, sep);
    LinesAt(a + b, sep);
  }

  lemma {:induction false} FilesAreLines(files: seq<Bytes>, payloads: seq<seq<Bytes>>, sep: Bytes)
    requires HoldLines(files, payloads, sep)
    ensures Concat(files) == Concat(Lines(Flat(payloads), sep))
  {
    if files != [] {
      FilesAreLines(files[1..], payloads[1..], sep);
      LinesAppend(payloads[0], Flat(payloads[1..]), sep);
      ConcatAppend(Lines(payloads[0], sep), Lines(Flat(payloads[1..]), sep));
    }
  }

  lemma {:induction false} FlatSuffix(payloads: seq<seq<Bytes>>, j: nat) returns (k: nat)
    requires j <= |payloads|
    ensures k <= |Flat(payloads)| && Flat(payloads)[k..] == Flat(payloads[j..])
  {
    if j == 0 {
      k := 0;
      assert payloads[0..] == payloads;
    } else {
      k := FlatSuffix(payloads[1..], j - 1);
      assert payloads[1..][j - 1..] == payloads[j..];
      DropBoth(payloads[0], Flat(payloads[1..]), k);
      k := |payloads[0]| + k;
    }
  }

  lemma DropBoth<T>(a: seq<T>, b: seq<T>, k: nat)
    requires k <= |b|
    ensures (a + b)[|a| + k..] == b[k..]
  {
  }

  lemma DropFirst<T>(a: seq<T>, b: seq<T>, k: nat)
    requires k <= |a|
    ensures (a + b)[k..] == a[k..] + b
  {
  }

  lemma HoldLinesFrom(files: seq<Bytes>, payloads: seq<seq<Bytes>>, sep: Bytes, j: nat)
    requires HoldLines(files, payloads, sep) && j <= |files|
    ensures HoldLines(files[j..], payloads[j..], sep)
  {
  }

  /** Whole leading files or lines taken away leave the last lines. */
  lemma LinesLeft(files: seq<Bytes>, prior: seq<seq<Bytes>>, payloads: seq<Bytes>, sep: Bytes, j: nat) returns (k: nat)
    requires HoldLines(files, prior, sep) && j <= |files| + |payloads|
    ensures |Lines(payloads, sep)| == |payloads|
    ensures k <= |Flat(prior) + payloads|
    ensures Concat((files + Lines(payloads, sep))[j..]) == Concat(Lines((Flat(prior) + payloads)[k..], sep))
  {
    var lines := Lines(payloads, sep);
    LinesAt(payloads, sep);
    if j <= |files| {
      k := FlatSuffix(prior, j);
      DropFirst(files, lines, j);
      DropFirst(Flat(prior), payloads, k);
      HoldLinesFrom(files, prior, sep, j);
      FilesAreLines(files[j..], prior[j..], sep);
      ConcatAppend(files[j..], lines);
      LinesAppend(Flat(prior[j..]), payloads, sep);
      ConcatAppend(Lines(Flat(prior[j..]), sep), lines);
    } else {
      var i := j - |files|;
      DropBoth(files, lines, i);
      DropBoth(Flat(prior), payloads, i);
      LinesSuffix(payloads, sep, i);
      k := |Flat(prior)| + i;
    }
  }

  /** The payloads that a sink wrote to a path. */
  function Sent(s: Sink, path: string): seq<Bytes>
    requires Epochs(s)
  {
    PayloadsTo(path, s.past.configs, s.past.done)
  }

  /** The retained files hold the last lines of those the path began with and those written to it. */
  lemma RetainedLines(disk: Disk, s: Sink, path: string, prior: seq<seq<Bytes>>, sep: Bytes, n: nat) returns (k: nat)
    requires Inv(disk, s) && BeganWith(disk, path, n, prior, sep)
    requires OneLayout(path, s.past.configs, sep) && Backed(path, s.past.configs, n)
    ensures var payloads := Flat(prior) + Sent(s, path);
            k <= |payloads| && Log(Opened(s.disk, path), n) == Concat(Lines(payloads[k..], sep))
  {
    var payloads := Sent(s, path);
    BlobsAreLines(path, s.past.configs, s.past.done, sep);
    LinesAt(payloads, sep);
    var j := SinkRetains(disk, s, path, n);
    k := LinesLeft(InitialFiles(Opened(disk, path), n), prior, payloads, sep, j);
  }

  /** A path without files begins with nothing. */
  lemma {:induction false} NewPathBegins(disk: Disk, path: string, n: nat, sep: Bytes)
    requires path !in disk
    ensures BeganWith(disk, path, n, [[]], sep) && Flat([[]]) == []
  {
    NoFilesYet(n);
    assert Flat([[]]) == [] + Flat([[]][1..]);
  }

  lemma {:induction false} NoFilesYet(n: nat)
    ensures InitialFiles(map[0 := []], n) == [[]]
  {
    var units := AsUnits(map[0 := []]);
    assert units == map[0 := [[]]];
    if n > 0 {
      NoFilesYet(n - 1);
      EmptyLeft(Log(units, n - 1));
    }
  }

  lemma SuffixFits(payloads: seq<Bytes>, sep: Bytes, limit: nat, k: nat)
    requires AllFree(payloads, sep) && NoneLonger(payloads, limit) && k <= |payloads|
    ensures AllFree(payloads[k..], sep) && NoneLonger(payloads[k..], limit)
  {
  }

  /**
   Written in the delimited format and rotated, then read oldest file first through a framer in
   any chunks: the last payloads, of those the path began with and those written to it, come back,
   each whole (with CR LF: exactly if no cut severs a separator).
   */
  lemma {:induction false} RetainedReadsBack(disk: Disk, s: Sink, path: string, prior: seq<seq<Bytes>>, mode: Mode, limit: nat, n: nat, chunks: seq<Bytes>)
      returns (k: nat)
    requires Inv(disk, s) && !mode.RawChunk? && BeganWith(disk, path, n, prior, Separator(mode))
    requires OneLayout(path, s.past.configs, Separator(mode)) && Backed(path, s.past.configs, n)
    requires AllFree(Flat(prior) + Sent(s, path), Separator(mode)) && NoneLonger(Flat(prior) + Sent(s, path), limit)
    requires Concat(chunks) == Log(Opened(s.disk, path), n)
    ensures var payloads := Flat(prior) + Sent(s, path);
            k <= |payloads| &&
            (FeedAndFlush(mode, limit, chunks) == Whole(payloads[k..]) <==> mode.Lf? || SafeCuts(limit, chunks))
  {
    var payloads := Flat(prior) + Sent(s, path);
    k := RetainedLines(disk, s, path, prior, Separator(mode), n);
    SuffixFits(payloads, Separator(mode), limit, k);
    if mode.Lf? {
      LfReadsBack(limit, payloads[k..], chunks);
    } else {
      CrLfReadsBack(limit, payloads[k..], chunks);
    }
  }

  // ----- The whole circle ------------------------------------------------

  /** A record that can be written as a line and read back. */
  ghost predicate Clean(mode: Mode, max: nat, record: Record)
    requires !mode.RawChunk?
  {
    Free(record.payload, Separator(mode), 0) && |record.payload| <= max
  }

  lemma PrefixFree(a: Bytes, sep: Bytes, k: nat)
    requires Free(a, sep, 0) && k <= |a| && sep != []
    ensures Free(a[..k], sep, 0)
  {
    assert a == a[..k] + a[k..];
    forall i: nat | i + |sep| <= k ensures !OccursAt(a[..k], sep, i) {
      OccursInPrefix(a[..k], a[k..], sep, i);
    }
  }

  lemma ClampClean(mode: Mode, max: nat, raw: Bytes)
    requires !mode.RawChunk? && Free(raw, Separator(mode), 0)
    ensures Clean(mode, max, Clamp(max, raw))
  {
    if |raw| > max {
      PrefixFree(raw, Separator(mode), max);
    }
  }

  lemma PieceFree(s: Bytes, sep: Bytes, start: nat, i: nat)
    requires sep != [] && First(s, sep, start, i)
    ensures Free(s[start..i], sep, 0)
  {
    forall j: nat | j + |sep| <= i - start ensures !OccursAt(s[start..i], sep, j) {
      assert s[..start] + s[start..i] == s[..i] && s[..i] + s[i..] == s;
      OccursInSuffix(s[..start], s[start..i], sep, start + j);
      OccursInPrefix(s[..i], s[i..], sep, start + j);
    }
  }

  lemma {:induction false} ClosedFree(s: Bytes, sep: Bytes, start: nat)
    requires sep != [] && start <= |s|
    ensures AllFree(Cut(s, sep, start).closed, sep)
    decreases |s| - start
  {
    var i := Find(s, sep, start);
    if i >= 0 {
      PieceFree(s, sep, start, i);
      ClosedFree(s, sep, i + |sep|);
    }
  }

  lemma {:induction false} ClampAllClean(mode: Mode, max: nat, raws: seq<Bytes>)
    requires !mode.RawChunk? && AllFree(raws, Separator(mode))
    ensures forall r | r in ClampAll(max, raws) :: Clean(mode, max, r)
  {
    if raws != [] {
      ClampClean(mode, max, raws[0]);
      ClampAllClean(mode, max, raws[1..]);
    }
  }

  /** Whatever a framer reports can be written as a line and read back. */
  lemma ReportedClean(mode: Mode, max: nat, stream: Stream)
    requires !mode.RawChunk?
    ensures forall r | r in ReportedOf(mode, max, stream) :: Clean(mode, max, r)
  {
    var sep, s := Separator(mode), Heard(mode, max, stream.chunks);
    RecordsOfHeard(mode, max, stream.chunks);
    FeedAllTracks(mode, max, stream.chunks);
    ClosedFree(s, sep, 0);
    ClampAllClean(mode, max, Cut(s, sep, 0).closed);
    TailFree(s, sep, 0);
    ClampClean(mode, max, Cut(s, sep, 0).tail);
  }

  lemma {:induction false} ReportedAllClean(mode: Mode, max: nat, streams: seq<Stream>)
    requires !mode.RawChunk?
    ensures forall r | r in ReportedAll(mode, max, streams) :: Clean(mode, max, r)
  {
    if streams != [] {
      ReportedAllClean(mode, max, streams[..|streams| - 1]);
      ReportedClean(mode, max, streams[|streams| - 1]);
    }
  }

  lemma {:induction false} InFromSrc(items: seq<Item>, item: Item)
    requires item in items
    ensures item.record in FromSrc(items, item.src)
  {
    var n := |items| - 1;
    if items[n] != item {
      InFromSrc(items[..n], item);
    }
  }

  lemma {:induction false} KeptFrom(items: seq<Item>, item: Item)
    requires item in Kept(items)
    ensures item in items
  {
    if item !in (if IsControl(items[0]) then [] else [items[0]]) {
      KeptFrom(items[1..], item);
    }
  }

  lemma {:induction false} PayloadsFrom(path: string, configs: seq<Config>, done: seq<Outcome>, p: Bytes)
    requires forall o | o in done :: 0 <= o.epoch < |configs|
    requires p in PayloadsTo(path, configs, done)
    ensures exists item :: item in Items(done) && item.record.payload == p
  {
    var n := |done| - 1;
    assert done[n].item in Items(done);
    if p in PayloadsTo(path, configs, done[..n]) {
      PayloadsFrom(path, configs, done[..n], p);
    }
  }

  lemma DoneAccepted(s: Sink, item: Item)
    requires Items(s.past.done) + Kept(s.queue) == Kept(s.past.accepted) && item in Items(s.past.done)
    ensures item.record in FromSrc(s.past.accepted, item.src)
  {
    assert item in Items(s.past.done) + Kept(s.queue);
    KeptFrom(s.past.accepted, item);
    InFromSrc(s.past.accepted, item);
  }

  lemma {:induction false} AcceptedClean(lim: Limits, disk: Disk, steps: seq<Step>, src: string, record: Record)
    requires lim.Valid() && lim.Top() <= lim.cfg.queueMax && !lim.mode.RawChunk?
    requires AllFit(lim, Fresh(lim.cfg, disk, lim.mode, lim.max), steps)
    requires record in FromSrc(RunAll(Fresh(lim.cfg, disk, lim.mode, lim.max), steps).sink.past.accepted, src)
    ensures Clean(lim.mode, lim.max, record)
  {
    var y := Fresh(lim.cfg, disk, lim.mode, lim.max);
    AllFitKeeps(lim, y, steps);
    NoRecordDropped(lim, disk, steps);
    AcceptedIsReported(lim.cfg, disk, lim.mode, lim.max, steps, src);
    RoomyLimits(lim, disk, steps);
    var net := RunAll(y, steps).net;
    if src in net.peers {
      ReportedAllClean(net.mode, net.max, Connections(net.peers[src]));
    }
  }

  /** Every record that a pipeline's sink dealt with can be written as a line and read back. */
  lemma {:induction false} DoneClean(lim: Limits, disk: Disk, steps: seq<Step>, item: Item)
    requires lim.Valid() && lim.Top() <= lim.cfg.queueMax && !lim.mode.RawChunk?
    requires AllFit(lim, Fresh(lim.cfg, disk, lim.mode, lim.max), steps) && AlwaysWrites(lim, steps)
    requires item in Items(RunAll(Fresh(lim.cfg, disk, lim.mode, lim.max), steps).sink.past.done)
    ensures Clean(lim.mode, lim.max, item.record)
  {
    AllFitKeeps(lim, Fresh(lim.cfg, disk, lim.mode, lim.max), steps);
    PipelineExactlyOnce(lim, disk, steps);
    DoneAccepted(RunAll(Fresh(lim.cfg, disk, lim.mode, lim.max), steps).sink, item);
    AcceptedClean(lim, disk, steps, item.src, item.record);
  }

  lemma PipelineInv(lim: Limits, disk: Disk, steps: seq<Step>)
    requires lim.cfg.Valid() && forall step | step in steps :: Allowed(step)
    ensures Inv(disk, RunAll(Fresh(lim.cfg, disk, lim.mode, lim.max), steps).sink)
  {
    var y := Fresh(lim.cfg, disk, lim.mode, lim.max);
    var actions := PipelineRuns(y, steps);
    InvInitial(lim.cfg, disk);
    InvStep(disk, Initial(lim.cfg, disk), DoStart);
    InvRun(disk, y.sink, actions);
  }

  lemma SentClean(lim: Limits, disk: Disk, steps: seq<Step>, path: string)
    requires lim.Valid() && lim.Top() <= lim.cfg.queueMax && !lim.mode.RawChunk?
    requires AllFit(lim, Fresh(lim.cfg, disk, lim.mode, lim.max), steps) && AlwaysWrites(lim, steps)
    requires Epochs(RunAll(Fresh(lim.cfg, disk, lim.mode, lim.max), steps).sink)
    ensures var payloads := Sent(RunAll(Fresh(lim.cfg, disk, lim.mode, lim.max), steps).sink, path);
            AllFree(payloads, Separator(lim.mode)) && NoneLonger(payloads, lim.max)
  {
    var s := RunAll(Fresh(lim.cfg, disk, lim.mode, lim.max), steps).sink;
    forall p | p in Sent(s, path) ensures Free(p, Separator(lim.mode), 0) && |p| <= lim.max {
      PayloadsFrom(path, s.past.configs, s.past.done, p);
      var item :| item in Items(s.past.done) && item.record.payload == p;
      DoneClean(lim, disk, steps, item);
    }
  }

  /**
   The whole circle: bytes received from any peers are framed, queued, written as lines and
   rotated; reading the retained files through such a framer, in any chunks, gives back whole
   the last records that were written, after what the files held before (with CR LF: exactly if
   no cut severs a separator).
   */
  lemma {:induction false} PipelineReadsBack(lim: Limits, disk: Disk, steps: seq<Step>, path: string, prior: seq<seq<Bytes>>, n: nat, chunks: seq<Bytes>)
      returns (k: nat)
    requires lim.Valid() && lim.Top() <= lim.cfg.queueMax && !lim.mode.RawChunk?
    requires AllFit(lim, Fresh(lim.cfg, disk, lim.mode, lim.max), steps) && AlwaysWrites(lim, steps)
    requires BeganWith(disk, path, n, prior, Separator(lim.mode))
    requires AllFree(Flat(prior), Separator(lim.mode)) && NoneLonger(Flat(prior), lim.max)
    requires var s := RunAll(Fresh(lim.cfg, disk, lim.mode, lim.max), steps).sink;
             OneLayout(path, s.past.configs, Separator(lim.mode)) && Backed(path, s.past.configs, n) &&
             Concat(chunks) == Log(Opened(s.disk, path), n)
    ensures var s := RunAll(Fresh(lim.cfg, disk, lim.mode, lim.max), steps).sink;
            Epochs(s) && k <= |Flat(prior) + Sent(s, path)| &&
            (FeedAndFlush(lim.mode, lim.max, chunks) == Whole((Flat(prior) + Sent(s, path))[k..]) <==>
              lim.mode.Lf? || SafeCuts(lim.max, chunks))
  {
    var y := Fresh(lim.cfg, disk, lim.mode, lim.max);
    AllFitKeeps(lim, y, steps);
    PipelineInv(lim, disk, steps);
    SentClean(lim, disk, steps, path);
    k := RetainedReadsBack(disk, RunAll(y, steps).sink, path, prior, lim.mode, lim.max, n, chunks);
  }
}
