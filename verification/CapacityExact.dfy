/** The capacity condition is exact: with less room some run drops a record. */
module CapacityExact {
  import opened Splitting
  import opened Framing
  import opened Chunking
  import opened FramerBudget
  import opened SinkSteps
  import opened SinkRuns
  import opened ReceiverSteps
  import opened ReceiverPause
  import opened ReceiverCapacity
  import opened WorstBytes

  // ----- Reaching states -------------------------------------------------

  ghost predicate Reached(lim: Limits, y0: System, steps: seq<Step>, y: System) {
    FileReady(y0.sink) && AllFit(lim, y0, steps) && RunAll(y0, steps) == y
  }

  lemma Extend(lim: Limits, y0: System, steps: seq<Step>, y: System, step: Step)
    requires Reached(lim, y0, steps, y) && FileReady(y.sink) && Fits(lim, y, step)
    ensures Reached(lim, y0, steps + [step], Next(y, step))
  {
    assert (steps + [step])[..|steps|] == steps;
  }

  ghost predicate NeverDrops(lim: Limits, y0: System)
    requires FileReady(y0.sink)
  {
    forall steps | AllFit(lim, y0, steps) :: RunAll(y0, steps).sink.stats.recordsDropped == 0
  }

  // ----- Too much is dropped ---------------------------------------------

  lemma DropsStay(y: System, src: string, record: Record)
    ensures y.sink.stats.recordsDropped <= Deliver(y, src, record).sink.stats.recordsDropped
  {
  }

  lemma DropsOne(y: System, c: Config, src: string, record: Record)
    requires Steady(y.sink, c) && y.sink.queuedBytes + |record.payload| > c.queueMax
    ensures Deliver(y, src, record).sink.stats.recordsDropped > 0
  {
  }

  /** Records that do not fit into the queue are not all accepted. */
  lemma {:induction false} FitsOrDrops(y: System, c: Config, src: string, records: seq<Record>)
    requires InStep(y) && Steady(y.sink, c) && y.sink.queuedBytes + TotalPayload(records) > c.queueMax
    requires y.sink.queuedBytes <= c.queueMax
    ensures DeliverAll(y, src, records).sink.stats.recordsDropped > 0
  {
    if records != [] {
      var n := |records| - 1;
      var z := DeliverAll(y, src, records[..n]);
      assert records == records[..n] + [records[n]];
      TotalPayloadAppend(records[..n], [records[n]]);
      OnePayload(records[n]);
      if y.sink.queuedBytes + TotalPayload(records[..n]) > c.queueMax {
        FitsOrDrops(y, c, src, records[..n]);
        DropsStay(z, src, records[n]);
      } else {
        DeliverSteady(y, c, src, records[..n]);
        DropsOne(z, c, src, records[n]);
      }
    }
  }

  // ----- Reads that leave the gate open ----------------------------------

  /** Reads are open, nothing is dropped, and the framing is that of the limits. */
  ghost predicate Open(lim: Limits, y: System) {
    lim.Valid() && InStep(y) && Steady(y.sink, lim.cfg) && y.net.running && !y.net.paused &&
    y.net.mode == lim.mode && y.net.max == lim.max
  }

  lemma StaysOpen(y: System, c: Config, src: string, record: Record)
    requires InStep(y) && Steady(y.sink, c) && !y.net.paused && y.sink.queuedBytes + |record.payload| < c.high
    ensures var z := Deliver(y, src, record);
            Steady(z.sink, c) && z.net == y.net && z.sink.queuedBytes == y.sink.queuedBytes + |record.payload| && InStep(z)
  {
    DeliverOneSteady(y, c, src, record);
    InStepDeliverOne(y, src, record);
    assert !Submit(y.sink, record, src).0.backpressured;
  }

  /** A read that completes no record only moves the framer. */
  lemma QuietRead(lim: Limits, y: System, src: string, chunk: Bytes, st: FramerState)
    requires Open(lim, y) && src in Readers(y.net) && chunk != []
    requires Fed(lim.mode, lim.max, y.net.peers[src].framer, chunk) == (st, [])
    ensures var z := DoRead(y, src, chunk);
            var peer := y.net.peers[src];
            Open(lim, z) && z == WithPeer(y, src, peer.(framer := st, chunks := peer.chunks + [chunk]))
  {
    var peer := y.net.peers[src].(framer := st, chunks := y.net.peers[src].chunks + [chunk]);
    InStepPeer(y, src, peer);
    assert DeliverAll(WithPeer(y, src, peer), src, []) == WithPeer(y, src, peer);
    assert y.net.peers[src := peer][src := peer] == y.net.peers[src := peer];
  }

  /** A read that completes one small record leaves reads open. */
  lemma RecordRead(lim: Limits, y: System, src: string, chunk: Bytes, st: FramerState, record: Record)
    requires Open(lim, y) && src in Readers(y.net) && chunk != []
    requires Fed(lim.mode, lim.max, y.net.peers[src].framer, chunk) == (st, [record])
    requires y.sink.queuedBytes + |record.payload| < lim.cfg.high
    ensures var z := DoRead(y, src, chunk);
            var peer := y.net.peers[src];
            Open(lim, z) && z.sink.queuedBytes == y.sink.queuedBytes + |record.payload| &&
            z.net == y.net.(peers := y.net.peers[src := peer.(framer := st, chunks := peer.chunks + [chunk])])
  {
    var peer := y.net.peers[src].(framer := st, chunks := y.net.peers[src].chunks + [chunk]);
    var fed := WithPeer(y, src, peer);
    InStepPeer(y, src, peer);
    DeliverOnly(fed, src, record);
    StaysOpen(fed, lim.cfg, src, record);
    var z := Deliver(fed, src, record);
    InStepPeer(z, src, peer);
    assert y.net.peers[src := peer][src := peer] == y.net.peers[src := peer];
  }

  lemma DeliverOnly(y: System, src: string, record: Record)
    ensures DeliverAll(y, src, [record]) == Deliver(y, src, record)
  {
    assert [record][..0] == [];
    assert DeliverAll(y, src, []) == y;
  }

  // ----- The worst run, phase by phase -----------------------------------

  function Name(i: nat): string {
    seq(i + 1, _ => 'p')
  }

  lemma NamesDiffer(i: nat, j: nat)
    requires i != j
    ensures Name(i) != Name(j)
  {
    assert |Name(i)| != |Name(j)|;
  }

  /** Peers `from` to `n - 1` are reading; the framers of the first `k` are primed, the others empty. */
  ghost predicate Lined(net: Net, from: nat, n: nat, k: nat) {
    forall i | from <= i < n ::
      Name(i) in Readers(net) && net.peers[Name(i)].framer == if i < k then Primed(net.mode, net.max) else Empty
  }

  /** Only the first `n` names are taken, and each of them lives. */
  ghost predicate Joined(net: Net, n: nat) {
    |Live(net)| == n && forall i | i >= n :: Name(i) !in net.peers
  }

  lemma JoinOne(net: Net, n: nat)
    requires Joined(net, n) && Lined(net, 0, n, 0)
    ensures var more := net.(peers := net.peers[Name(n) := Peer(Reading, Empty, [], false, [])]);
            Joined(more, n + 1) && Lined(more, 0, n + 1, 0)
  {
    var more := net.(peers := net.peers[Name(n) := Peer(Reading, Empty, [], false, [])]);
    assert Live(more) == Live(net) + {Name(n)};
    forall i: nat | i != n ensures Name(i) != Name(n) {
      NamesDiffer(i, n);
    }
  }

  lemma ConnectOpen(lim: Limits, y: System, src: string)
    requires Open(lim, y) && src !in y.net.peers
    ensures Open(lim, DoConnect(y, src))
    ensures DoConnect(y, src) == WithPeer(y, src, Peer(Reading, Empty, [], false, []))
  {
    var peer := Peer(Reading, Empty, [], false, []);
    InStepPeer(y, src, peer);
    assert y.net.peers[src := peer][src := peer] == y.net.peers[src := peer];
  }

  lemma {:induction false} ConnectAll(lim: Limits, y0: System, n: nat) returns (steps: seq<Step>, y: System)
    requires Open(lim, y0) && y0.net.peers == map[] && y0.sink.queuedBytes == 0 && n <= lim.peers
    ensures Reached(lim, y0, steps, y) && Open(lim, y) && y.sink.queuedBytes == 0
    ensures Joined(y.net, n) && Lined(y.net, 0, n, 0)
  {
    if n == 0 {
      steps, y := [], y0;
      assert Live(y0.net) == {};
    } else {
      steps, y := ConnectAll(lim, y0, n - 1);
      ConnectOpen(lim, y, Name(n - 1));
      JoinOne(y.net, n - 1);
      Extend(lim, y0, steps, y, Connect(Name(n - 1)));
      steps, y := steps + [Connect(Name(n - 1))], DoConnect(y, Name(n - 1));
    }
  }

  /** Only the framer of one peer has moved. */
  ghost predicate Refitted(net: Net, more: Net, src: string, st: FramerState) {
    src in net.peers && src in more.peers &&
    more == net.(peers := net.peers[src := net.peers[src].(framer := st, chunks := more.peers[src].chunks)])
  }

  lemma RefitTwice(a: Net, b: Net, c: Net, src: string, st: FramerState, st': FramerState)
    requires Refitted(a, b, src, st) && Refitted(b, c, src, st')
    ensures Refitted(a, c, src, st')
  {
    assert a.peers[src := b.peers[src]][src := c.peers[src]] == a.peers[src := c.peers[src]];
  }

  /** The other peers stay in line. */
  lemma LinedAfter(net: Net, more: Net, n: nat, k: nat, k': nat, j: nat, st: FramerState)
    requires Lined(net, 0, n, k) && j < n && (k' == k || (k == j && k' == j + 1))
    requires st == if j < k' then Primed(net.mode, net.max) else Empty
    requires Refitted(net, more, Name(j), st)
    ensures Lined(more, 0, n, k')
  {
    forall i | 0 <= i < n
      ensures Name(i) in Readers(more) && more.peers[Name(i)].framer == if i < k' then Primed(more.mode, more.max) else Empty
    {
      assert Name(i) in Readers(net) && Name(j) in Readers(net);
      if i != j {
        NamesDiffer(i, j);
      }
    }
  }

  /** A quiet read as a step of the run. */
  lemma QuietStep(lim: Limits, y0: System, steps: seq<Step>, y: System, src: string, chunk: Bytes, st: FramerState)
      returns (steps': seq<Step>, z: System)
    requires Reached(lim, y0, steps, y) && Open(lim, y) && src in Readers(y.net) && 0 < |chunk| <= lim.chunk
    requires Fed(lim.mode, lim.max, y.net.peers[src].framer, chunk) == (st, [])
    ensures Reached(lim, y0, steps', z) && Open(lim, z)
    ensures z.sink == y.sink && Refitted(y.net, z.net, src, st) && src in Readers(z.net)
  {
    QuietRead(lim, y, src, chunk, st);
    Extend(lim, y0, steps, y, Read(src, chunk));
    steps', z := steps + [Read(src, chunk)], DoRead(y, src, chunk);
  }

  lemma RecordStep(lim: Limits, y0: System, steps: seq<Step>, y: System, src: string, chunk: Bytes, st: FramerState, record: Record)
      returns (steps': seq<Step>, z: System)
    requires Reached(lim, y0, steps, y) && Open(lim, y) && src in Readers(y.net) && 0 < |chunk| <= lim.chunk
    requires Fed(lim.mode, lim.max, y.net.peers[src].framer, chunk) == (st, [record])
    requires y.sink.queuedBytes + |record.payload| < lim.cfg.high
    ensures Reached(lim, y0, steps', z) && Open(lim, z) && z.sink.queuedBytes == y.sink.queuedBytes + |record.payload|
    ensures Refitted(y.net, z.net, src, st)
  {
    RecordRead(lim, y, src, chunk, st, record);
    Extend(lim, y0, steps, y, Read(src, chunk));
    steps', z := steps + [Read(src, chunk)], DoRead(y, src, chunk);
  }

  /** Several reads of one peer that queue one byte in all and leave its framer empty. */
  ghost predicate FillsOne(y: System, z: System, src: string) {
    Refitted(y.net, z.net, src, Empty) && z.sink.queuedBytes == y.sink.queuedBytes + 1
  }

  ghost predicate CanFill(lim: Limits, y: System, src: string) {
    Open(lim, y) && src in Readers(y.net) && y.net.peers[src].framer == Empty && y.sink.queuedBytes + 1 < lim.cfg.high
  }

  /** A byte, and then its separator in one read. */
  lemma FillLine(lim: Limits, y0: System, steps: seq<Step>, y: System, src: string) returns (steps': seq<Step>, z: System)
    requires Reached(lim, y0, steps, y) && CanFill(lim, y, src)
    requires !lim.mode.RawChunk? && |Separator(lim.mode)| <= lim.chunk
    ensures Reached(lim, y0, steps', z) && Open(lim, z) && FillsOne(y, z, src)
  {
    var middle: System;
    FedFirst(lim.mode, lim.max);
    steps', middle := QuietStep(lim, y0, steps, y, src, [X], FramerState(Xs(1), false));
    FedSeparator(lim.mode, lim.max, Xs(1), Separator(lim.mode));
    steps', z := RecordStep(lim, y0, steps', middle, src, Separator(lim.mode), Empty, Record(Xs(1), false));
    RefitTwice(y.net, middle.net, z.net, src, FramerState(Xs(1), false), Empty);
  }

  /** A byte, a CR and an LF in reads of one byte each. */
  lemma FillCrLf(lim: Limits, y0: System, steps: seq<Step>, y: System, src: string) returns (steps': seq<Step>, z: System)
    requires Reached(lim, y0, steps, y) && CanFill(lim, y, src) && lim.mode.CrLf? && lim.max >= 2
    ensures Reached(lim, y0, steps', z) && Open(lim, z) && FillsOne(y, z, src)
  {
    var one, two: System;
    FedFirst(CrLf, lim.max);
    steps', one := QuietStep(lim, y0, steps, y, src, [X], FramerState(Xs(1), false));
    FedCr(lim.max);
    steps', two := QuietStep(lim, y0, steps', one, src, [CR], FramerState(Xs(1) + [CR], false));
    RefitTwice(y.net, one.net, two.net, src, FramerState(Xs(1), false), FramerState(Xs(1) + [CR], false));
    assert (Xs(1) + [CR]) + [LF] == Xs(1) + Separator(CrLf);
    FedSeparator(CrLf, lim.max, Xs(1) + [CR], [LF]);
    steps', z := RecordStep(lim, y0, steps', two, src, [LF], Empty, Record(Xs(1), false));
    RefitTwice(y.net, two.net, z.net, src, FramerState(Xs(1) + [CR], false), Empty);
  }

  /** With limit 1, a byte and a CR overflow; then LF, CR, LF end the swallowed record. */
  lemma FillOver(lim: Limits, y0: System, steps: seq<Step>, y: System, src: string) returns (steps': seq<Step>, z: System)
    requires Reached(lim, y0, steps, y) && CanFill(lim, y, src) && lim.mode.CrLf? && lim.max == 1
    ensures Reached(lim, y0, steps', z) && Open(lim, z)
    ensures Refitted(y.net, z.net, src, FramerState([], true)) && src in Readers(z.net)
    ensures z.sink.queuedBytes == y.sink.queuedBytes + 1
  {
    var one: System;
    FedFirst(CrLf, 1);
    steps', one := QuietStep(lim, y0, steps, y, src, [X], FramerState(Xs(1), false));
    FedCrOver();
    steps', z := RecordStep(lim, y0, steps', one, src, [CR], FramerState([], true), Record(Xs(1), true));
    RefitTwice(y.net, one.net, z.net, src, FramerState(Xs(1), false), FramerState([], true));
  }

  lemma Unswallow(lim: Limits, y0: System, steps: seq<Step>, y: System, src: string) returns (steps': seq<Step>, z: System)
    requires Reached(lim, y0, steps, y) && Open(lim, y) && lim.mode.CrLf? && lim.max == 1
    requires src in Readers(y.net) && y.net.peers[src].framer == FramerState([], true)
    ensures Reached(lim, y0, steps', z) && Open(lim, z) && z.sink == y.sink && Refitted(y.net, z.net, src, Empty)
  {
    var one, two: System;
    FedSwallowed([], LF);
    assert [] + [LF] == [LF] && [LF] + [CR] == [LF, CR];
    steps', one := QuietStep(lim, y0, steps, y, src, [LF], FramerState([LF], true));
    FedSwallowed([LF], CR);
    steps', two := QuietStep(lim, y0, steps', one, src, [CR], FramerState([LF, CR], true));
    RefitTwice(y.net, one.net, two.net, src, FramerState([LF], true), FramerState([LF, CR], true));
    FedUnswallow();
    steps', z := QuietStep(lim, y0, steps', two, src, [LF], Empty);
    RefitTwice(y.net, two.net, z.net, src, FramerState([LF, CR], true), Empty);
  }

  /** One more queued byte. */
  lemma FillByte(lim: Limits, y0: System, steps: seq<Step>, y: System, src: string) returns (steps': seq<Step>, z: System)
    requires Reached(lim, y0, steps, y) && CanFill(lim, y, src)
    ensures Reached(lim, y0, steps', z) && Open(lim, z) && FillsOne(y, z, src)
  {
    if lim.mode.RawChunk? {
      FedRaw(lim.max);
      steps', z := RecordStep(lim, y0, steps, y, src, [X], Empty, Record(Xs(1), false));
    } else if |Separator(lim.mode)| <= lim.chunk {
      steps', z := FillLine(lim, y0, steps, y, src);
    } else if lim.max >= 2 {
      steps', z := FillCrLf(lim, y0, steps, y, src);
    } else {
      var middle: System;
      steps', middle := FillOver(lim, y0, steps, y, src);
      steps', z := Unswallow(lim, y0, steps', middle, src);
      RefitTwice(y.net, middle.net, z.net, src, FramerState([], true), Empty);
    }
  }

  lemma FillOne(lim: Limits, y0: System, steps: seq<Step>, y: System, n: nat) returns (steps': seq<Step>, z: System)
    requires Reached(lim, y0, steps, y) && Open(lim, y)
    requires 0 < n && Lined(y.net, 0, n, 0) && y.sink.queuedBytes + 1 < lim.cfg.high
    ensures Reached(lim, y0, steps', z) && Open(lim, z)
    ensures Lined(z.net, 0, n, 0) && z.sink.queuedBytes == y.sink.queuedBytes + 1
  {
    var src := Name(0);
    assert src in Readers(y.net) && y.net.peers[src].framer == Empty;
    steps', z := FillByte(lim, y0, steps, y, src);
    LinedAfter(y.net, z.net, n, 0, 0, 0, Empty);
  }

  lemma {:induction false} FillAll(lim: Limits, y0: System, n: nat, k: nat) returns (steps: seq<Step>, y: System)
    requires Open(lim, y0) && y0.net.peers == map[] && y0.sink.queuedBytes == 0 && 0 < n <= lim.peers
    requires k < lim.cfg.high
    ensures Reached(lim, y0, steps, y) && Open(lim, y) && y.sink.queuedBytes == k && Lined(y.net, 0, n, 0)
  {
    if k == 0 {
      steps, y := ConnectAll(lim, y0, n);
    } else {
      steps, y := FillAll(lim, y0, n, k - 1);
      steps, y := FillOne(lim, y0, steps, y, n);
    }
  }

  /** Fill one framer's buffer up to `m` bytes. */
  lemma {:induction false} PrimeOne(lim: Limits, y0: System, steps: seq<Step>, y: System, src: string, m: nat)
      returns (steps': seq<Step>, z: System)
    requires Reached(lim, y0, steps, y) && Open(lim, y) && !lim.mode.RawChunk? && m <= lim.max
    requires src in Readers(y.net) && y.net.peers[src].framer == Empty
    ensures Reached(lim, y0, steps', z) && Open(lim, z) && z.sink == y.sink && src in Readers(z.net)
    ensures Refitted(y.net, z.net, src, FramerState(Xs(m), false))
  {
    if m == 0 {
      steps', z := steps, y;
      assert Xs(0) == [];
      assert y.net.peers[src := y.net.peers[src]] == y.net.peers;
    } else {
      var middle: System;
      steps', middle := PrimeOne(lim, y0, steps, y, src, m - 1);
      FedX(lim.mode, lim.max, m - 1);
      steps', z := QuietStep(lim, y0, steps', middle, src, [X], FramerState(Xs(m), false));
      RefitTwice(y.net, middle.net, z.net, src, FramerState(Xs(m - 1), false), FramerState(Xs(m), false));
    }
  }

  lemma {:induction false} PrimeAll(lim: Limits, y0: System, n: nat, k: nat) returns (steps: seq<Step>, y: System)
    requires Open(lim, y0) && y0.net.peers == map[] && y0.sink.queuedBytes == 0 && 0 < n <= lim.peers
    requires !lim.mode.RawChunk? && k <= n
    ensures Reached(lim, y0, steps, y) && Open(lim, y) && y.sink.queuedBytes == lim.cfg.high - 1 && Lined(y.net, 0, n, k)
  {
    if k == 0 {
      steps, y := FillAll(lim, y0, n, lim.cfg.high - 1);
    } else {
      var before: System;
      steps, before := PrimeAll(lim, y0, n, k - 1);
      steps, y := PrimeNext(lim, y0, steps, before, n, k - 1);
    }
  }

  lemma PrimeNext(lim: Limits, y0: System, steps: seq<Step>, y: System, n: nat, j: nat) returns (steps': seq<Step>, z: System)
    requires Reached(lim, y0, steps, y) && Open(lim, y) && !lim.mode.RawChunk? && Lined(y.net, 0, n, j) && j < n
    ensures Reached(lim, y0, steps', z) && Open(lim, z) && z.sink == y.sink && Lined(z.net, 0, n, j + 1)
  {
    assert Name(j) in Readers(y.net);
    steps', z := PrimeOne(lim, y0, steps, y, Name(j), lim.max);
    LinedAfter(y.net, z.net, n, j, j + 1, j, Primed(lim.mode, lim.max));
  }

  /** The queue one byte below the high watermark, and every peer ready for its worst read. */
  lemma ReadyForWorst(lim: Limits, y0: System, n: nat) returns (steps: seq<Step>, y: System)
    requires Open(lim, y0) && y0.net.peers == map[] && y0.sink.queuedBytes == 0 && 0 < n <= lim.peers
    ensures Reached(lim, y0, steps, y) && Open(lim, y) && y.sink.queuedBytes == lim.cfg.high - 1 && Lined(y.net, 0, n, n)
  {
    if lim.mode.RawChunk? {
      steps, y := FillAll(lim, y0, n, lim.cfg.high - 1);
    } else {
      steps, y := PrimeAll(lim, y0, n, n);
    }
  }

  // ----- The worst reads -------------------------------------------------

  lemma {:induction false} DropsStayAll(y: System, src: string, records: seq<Record>)
    ensures y.sink.stats.recordsDropped <= DeliverAll(y, src, records).sink.stats.recordsDropped
  {
    if records != [] {
      var n := |records| - 1;
      DropsStayAll(y, src, records[..n]);
      DropsStay(DeliverAll(y, src, records[..n]), src, records[n]);
    }
  }

  /** Either all records are accepted and the transport at most paused, or one is dropped. */
  ghost predicate AcceptsOrDrops(y: System, z: System, c: Config, total: nat) {
    z.sink.stats.recordsDropped > 0 ||
    (InStep(z) && Steady(z.sink, c) && z.net == y.net.(paused := z.net.paused) &&
     z.sink.queuedBytes == y.sink.queuedBytes + total <= c.queueMax)
  }

  lemma DeliverOrDrop(y: System, c: Config, src: string, records: seq<Record>)
    requires InStep(y) && Steady(y.sink, c) && y.sink.queuedBytes <= c.queueMax
    ensures AcceptsOrDrops(y, DeliverAll(y, src, records), c, TotalPayload(records))
  {
    if y.sink.queuedBytes + TotalPayload(records) > c.queueMax {
      FitsOrDrops(y, c, src, records);
    } else {
      DeliverSteady(y, c, src, records);
    }
  }

  /** A last read after the transport has stopped: the chunk's records, the flush, and gone. */
  lemma LastRead(y: System, src: string, chunk: Bytes, next: Peer, records: seq<Record>, last: seq<Record>)
    requires !y.net.running && src in Readers(y.net) && chunk != []
    requires var peer := y.net.peers[src];
             var (framer, out) := Fed(y.net.mode, y.net.max, peer.framer, chunk);
             next == peer.(framer := framer, chunks := peer.chunks + [chunk]) && records == out &&
             last == Optional(Flushed(y.net.mode, y.net.max, framer).1)
    ensures var z := DeliverAll(WithPeer(y, src, next), src, records);
            z.net == WithPeer(y, src, next).net.(paused := z.net.paused) ==>
              DoRead(y, src, chunk) ==
                DeliverAll(WithPeer(z, src, next.(framer := Flushed(y.net.mode, y.net.max, next.framer).0,
                                                  status := Closed, flushed := true)), src, last)
  {
    DeliverKeepsPeers(WithPeer(y, src, next), src, records);
  }

  /** Stopped, with nothing dropped yet. */
  ghost predicate Stopped(lim: Limits, y: System) {
    lim.Valid() && InStep(y) && Steady(y.sink, lim.cfg) && !y.net.running &&
    y.net.mode == lim.mode && y.net.max == lim.max && y.sink.queuedBytes <= lim.cfg.queueMax
  }

  /** Either a worst read drops a record, or it queues all its bytes and no other peer changes. */
  ghost predicate ReadsOrDrops(lim: Limits, y: System, z: System, src: string, total: nat) {
    z.sink.stats.recordsDropped > 0 ||
    (Stopped(lim, z) && src in z.net.peers && z.net.peers == y.net.peers[src := z.net.peers[src]] &&
     z.sink.queuedBytes == y.sink.queuedBytes + total)
  }

  lemma ReadOrDrop(lim: Limits, y: System, src: string, chunk: Bytes)
    requires Stopped(lim, y) && src in Readers(y.net) && chunk != []
    ensures var (st, out) := Fed(lim.mode, lim.max, y.net.peers[src].framer, chunk);
            ReadsOrDrops(lim, y, DoRead(y, src, chunk), src,
                         TotalPayload(out) + TotalPayload(Optional(Flushed(lim.mode, lim.max, st).1)))
  {
    var peer := y.net.peers[src];
    var (st, out) := Fed(lim.mode, lim.max, peer.framer, chunk);
    var next, last := peer.(framer := st, chunks := peer.chunks + [chunk]), Optional(Flushed(lim.mode, lim.max, st).1);
    var z := DeliverAll(WithPeer(y, src, next), src, out);
    InStepPeer(y, src, next);
    DeliverOrDrop(WithPeer(y, src, next), lim.cfg, src, out);
    if z.sink.stats.recordsDropped > 0 {
      ReadKeepsDrops(y, src, chunk, next, out);
    } else {
      LastRead(y, src, chunk, next, out, last);
      var left := next.(framer := Flushed(lim.mode, lim.max, st).0, status := Closed, flushed := true);
      InStepPeer(z, src, left);
      DeliverOrDrop(WithPeer(z, src, left), lim.cfg, src, last);
      assert y.net.peers[src := next][src := left] == y.net.peers[src := left];
    }
  }

  lemma ReadKeepsDrops(y: System, src: string, chunk: Bytes, next: Peer, records: seq<Record>)
    requires src in Readers(y.net) && chunk != []
    requires var peer := y.net.peers[src];
             var (framer, out) := Fed(y.net.mode, y.net.max, peer.framer, chunk);
             next == peer.(framer := framer, chunks := peer.chunks + [chunk]) && records == out
    requires DeliverAll(WithPeer(y, src, next), src, records).sink.stats.recordsDropped > 0
    ensures DoRead(y, src, chunk).sink.stats.recordsDropped > 0
  {
    var z := DeliverAll(WithPeer(y, src, next), src, records);
    DeliverKeepsPeers(WithPeer(y, src, next), src, records);
    if !z.net.running {
      var peer := z.net.peers[src];
      var (framer, record) := Flushed(z.net.mode, z.net.max, peer.framer);
      var left := WithPeer(z, src, peer.(framer := framer, status := Closed, flushed := true));
      DropsStayAll(left, src, Optional(record));
    }
  }

  lemma StopStep(lim: Limits, y0: System, steps: seq<Step>, y: System, n: nat) returns (steps': seq<Step>, z: System)
    requires Reached(lim, y0, steps, y) && Open(lim, y) && Lined(y.net, 0, n, n) && y.sink.queuedBytes < lim.cfg.high
    ensures Reached(lim, y0, steps', z) && Stopped(lim, z) && Lined(z.net, 0, n, n) && z.sink == y.sink
  {
    Extend(lim, y0, steps, y, StopTransport);
    steps', z := steps + [StopTransport], Next(y, StopTransport);
    forall i | 0 <= i < n ensures Name(i) in Readers(z.net) && z.net.peers[Name(i)].framer == Primed(z.net.mode, z.net.max) {
      assert Name(i) in Readers(y.net);
    }
  }

  lemma LinedRest(net: Net, more: Net, i: nat, n: nat)
    requires Lined(net, i, n, n) && i < n && more.mode == net.mode && more.max == net.max
    requires Name(i) in more.peers && more.peers == net.peers[Name(i) := more.peers[Name(i)]]
    ensures Lined(more, i + 1, n, n)
  {
    forall j | i + 1 <= j < n ensures Name(j) in Readers(more) && more.peers[Name(j)].framer == Primed(more.mode, more.max) {
      NamesDiffer(i, j);
      assert Name(j) in Readers(net);
    }
  }

  /** A record is dropped, or the worst reads of the first `i` peers are all queued. */
  ghost predicate WorstSoFar(lim: Limits, y: System, n: nat, i: nat, total: nat) {
    y.sink.stats.recordsDropped > 0 ||
    (Stopped(lim, y) && Lined(y.net, i, n, n) && y.sink.queuedBytes == lim.cfg.high - 1 + total)
  }

  lemma WorstRead(lim: Limits, y0: System, steps: seq<Step>, y: System, n: nat, i: nat, total: nat)
      returns (steps': seq<Step>, z: System)
    requires lim.Valid() && Reached(lim, y0, steps, y) && i < n
    requires WorstSoFar(lim, y, n, i, total) && y.sink.stats.recordsDropped == 0
    ensures Reached(lim, y0, steps', z) && WorstSoFar(lim, z, n, i + 1, total + lim.BurstSize())
  {
    var src, chunk := Name(i), Worst(lim.mode, lim.max, lim.chunk);
    assert src in Readers(y.net) && y.net.peers[src].framer == Primed(lim.mode, lim.max);
    WorstBurst(lim.mode, lim.max, lim.chunk);
    ReadOrDrop(lim, y, src, chunk);
    Extend(lim, y0, steps, y, Read(src, chunk));
    steps', z := steps + [Read(src, chunk)], DoRead(y, src, chunk);
    if z.sink.stats.recordsDropped == 0 {
      LinedRest(y.net, z.net, i, n);
    }
  }

  lemma BeforeWorst(lim: Limits, y0: System, n: nat) returns (steps: seq<Step>, y: System)
    requires Open(lim, y0) && y0.net.peers == map[] && y0.sink.queuedBytes == 0 && 0 < n <= lim.peers
    ensures Reached(lim, y0, steps, y) && Stopped(lim, y) && Lined(y.net, 0, n, n)
    ensures y.sink.queuedBytes == lim.cfg.high - 1
  {
    var before: System;
    steps, before := ReadyForWorst(lim, y0, n);
    steps, y := StopStep(lim, y0, steps, before, n);
  }

  function Times(i: nat, burst: nat): nat {
    if i == 0 then 0 else Times(i - 1, burst) + burst
  }

  lemma {:induction false} TimesIs(i: nat, burst: nat)
    ensures Times(i, burst) == i * burst
  {
    if i > 0 {
      TimesIs(i - 1, burst);
      Product(i - 1, i - 1, burst);
    }
  }

  lemma WorstNext(lim: Limits, y0: System, steps: seq<Step>, y: System, n: nat, i: nat, total: nat)
      returns (steps': seq<Step>, z: System)
    requires lim.Valid() && Reached(lim, y0, steps, y) && i < n && WorstSoFar(lim, y, n, i, total)
    ensures Reached(lim, y0, steps', z) && WorstSoFar(lim, z, n, i + 1, total + lim.BurstSize())
  {
    if y.sink.stats.recordsDropped == 0 {
      steps', z := WorstRead(lim, y0, steps, y, n, i, total);
    } else {
      steps', z := steps, y;
    }
  }

  ghost predicate WorstAfter(lim: Limits, y0: System, steps: seq<Step>, n: nat, i: nat, total: nat) {
    FileReady(y0.sink) && AllFit(lim, y0, steps) && WorstSoFar(lim, RunAll(y0, steps), n, i, total)
  }

  /** Some steps lead to a drop, or to `i` worst reads. */
  ghost predicate CanWorsen(lim: Limits, y0: System, n: nat, i: nat, total: nat) {
    exists steps :: WorstAfter(lim, y0, steps, n, i, total)
  }

  lemma WorsenNext(lim: Limits, y0: System, n: nat, i: nat, total: nat)
    requires lim.Valid() && i < n && CanWorsen(lim, y0, n, i, total)
    ensures CanWorsen(lim, y0, n, i + 1, total + lim.BurstSize())
  {
    var steps :| WorstAfter(lim, y0, steps, n, i, total);
    var steps', z := WorstNext(lim, y0, steps, RunAll(y0, steps), n, i, total);
    assert WorstAfter(lim, y0, steps', n, i + 1, total + lim.BurstSize());
  }

  lemma {:induction false} WorstReads(lim: Limits, y0: System, n: nat, i: nat)
    requires lim.Valid() && i <= n && CanWorsen(lim, y0, n, 0, 0)
    ensures CanWorsen(lim, y0, n, i, Times(i, lim.BurstSize()))
  {
    if i > 0 {
      WorstReads(lim, y0, n, i - 1);
      WorsenNext(lim, y0, n, i - 1, Times(i - 1, lim.BurstSize()));
    }
  }

  lemma FreshOpen(lim: Limits, disk: Disk)
    requires lim.Valid()
    ensures Open(lim, Fresh(lim.cfg, disk, lim.mode, lim.max))
  {
    FreshInStep(lim.cfg, disk, lim.mode, lim.max);
    SteadyStep(Initial(lim.cfg, disk), lim.cfg, DoStart);
  }

  /** Without the room, here is a run that drops a record. */
  lemma {:induction false} WorstRun(lim: Limits, disk: Disk) returns (steps: seq<Step>)
    requires lim.Valid() && lim.Top() > lim.cfg.queueMax
    ensures AllFit(lim, Fresh(lim.cfg, disk, lim.mode, lim.max), steps)
    ensures RunAll(Fresh(lim.cfg, disk, lim.mode, lim.max), steps).sink.stats.recordsDropped > 0
  {
    var y0, n := Fresh(lim.cfg, disk, lim.mode, lim.max), lim.peers;
    FreshOpen(lim, disk);
    TimesIs(n, lim.BurstSize());
    TimesIs(0, lim.BurstSize());
    var steps0, y := BeforeWorst(lim, y0, n);
    assert WorstAfter(lim, y0, steps0, n, 0, 0);
    WorstReads(lim, y0, n, n);
    steps :| WorstAfter(lim, y0, steps, n, n, Times(n, lim.BurstSize()));
  }

  /**
   The condition is exact: no run whatever drops a record if and only if one burst of every
   peer fits above the high watermark.
   */
  lemma CapacityIsExact(lim: Limits, disk: Disk)
    requires lim.Valid()
    ensures NeverDrops(lim, Fresh(lim.cfg, disk, lim.mode, lim.max)) <==> lim.Top() <= lim.cfg.queueMax
  {
    var y0 := Fresh(lim.cfg, disk, lim.mode, lim.max);
    if lim.Top() <= lim.cfg.queueMax {
      forall steps | AllFit(lim, y0, steps) ensures RunAll(y0, steps).sink.stats.recordsDropped == 0 {
        NoRecordDropped(lim, disk, steps);
      }
    } else {
      var steps := WorstRun(lim, disk);
      assert AllFit(lim, y0, steps);
    }
  }
}
