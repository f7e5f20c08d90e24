/** Backpressure prevents loss: a queue with enough room above its high watermark drops nothing. */
module ReceiverCapacity {
  import opened Splitting
  import opened Framing
  import opened Chunking
  import opened FramerBudget
  import opened SinkSteps
  import opened SinkRuns
  import opened ReceiverSteps
  import opened ReceiverPause

  // ----- One peer's burst ------------------------------------------------

  lemma ReadFits(mode: Mode, max: nat, chunk: nat, st: FramerState, data: Bytes)
    requires Sound(mode, max, st) && 0 < |data| <= chunk && max > 0
    ensures var (st', out) := Fed(mode, max, st, data);
            TotalPayload(out) + TotalPayload(Optional(Flushed(mode, max, st').1)) <= Burst(mode, max, chunk)
  {
    ReadBurst(mode, max, st, data);
    BurstMonotone(mode, max, |data|, chunk);
  }

  lemma FlushFits(mode: Mode, max: nat, chunk: nat, st: FramerState)
    requires Sound(mode, max, st)
    ensures TotalPayload(Optional(Flushed(mode, max, st).1)) <= Burst(mode, max, chunk)
  {
    FlushBudget(mode, max, st);
  }

  // ----- The sink under fixed limits -------------------------------------

  /** Both write, with the same watermarks and capacity; file, format and rotation may differ. */
  ghost predicate SameLimits(a: Config, b: Config) {
    a.enabled && b.enabled && a.high == b.high && a.low == b.low && a.queueMax == b.queueMax
  }

  /** Nothing dropped so far, and backpressure exactly as the last crossing says. */
  ghost predicate Steady(s: Sink, c: Config) {
    c.Valid() && SameLimits(s.cfg, c) && (s.pending.Some? ==> SameLimits(s.pending.value, c)) &&
    (if s.backpressured then c.low < s.queuedBytes else s.queuedBytes < c.high) &&
    s.stats.recordsDropped == 0
  }

  lemma SteadySubmit(s: Sink, c: Config, record: Record, src: string)
    requires Steady(s, c) && s.queuedBytes + |record.payload| <= c.queueMax
    ensures var t := Submit(s, record, src).0;
            Steady(t, c) && t.queuedBytes == s.queuedBytes + |record.payload| &&
            (s.backpressured ==> t.backpressured)
  {
  }

  lemma SteadyRelease(s: Sink, c: Config, item: Item, written: Option<Bytes>)
    requires Steady(s, c)
    ensures var t := Release(s, item, written);
            Steady(t, c) && t.queuedBytes == s.queuedBytes - |item.record.payload| &&
            (t.backpressured ==> s.backpressured)
  {
  }

  lemma SteadyApplyPending(s: Sink, c: Config)
    requires Steady(s, c)
    ensures var t := ApplyPending(s);
            Steady(t, c) && t.queuedBytes == s.queuedBytes && t.backpressured == s.backpressured
  {
  }

  lemma SteadyPersist(s: Sink, c: Config, item: Item, line: Bytes)
    requires FileReady(s) && Steady(s, c)
    ensures var t := Persist(s, item, line).0;
            Steady(t, c) && t.queuedBytes == s.queuedBytes && t.backpressured == s.backpressured
  {
  }

  /** Draining only relieves. */
  lemma SteadyDrain(s: Sink, c: Config, line: Bytes)
    requires FileReady(s) && Steady(s, c)
    ensures var t := Drain(s, line);
            Steady(t, c) && t.queuedBytes <= s.queuedBytes && (t.backpressured ==> s.backpressured)
  {
    if s.task.Running? && s.queue != [] {
      var rest := s.(queue := s.queue[1..]);
      SteadyApplyPending(rest, c);
      var a := ApplyPending(rest);
      if !IsControl(s.queue[0]) {
        SteadyPersist(a, c, s.queue[0], line);
        var (t, blob) := Persist(a, s.queue[0], line);
        SteadyRelease(t, c, s.queue[0], blob);
      }
    }
  }

  lemma SteadyStep(s: Sink, c: Config, a: Action)
    requires FileReady(s) && Steady(s, c)
    requires !a.DoSubmit? && (a.DoConfigure? ==> SameLimits(a.cfg, c))
    ensures var t := Apply(s, a);
            Steady(t, c) && t.queuedBytes <= s.queuedBytes && (t.backpressured ==> s.backpressured)
  {
    if a.DoDrain? {
      SteadyDrain(s, c, a.line);
    }
  }

  // ----- Deliveries ------------------------------------------------------

  lemma DeliverOneSteady(y: System, c: Config, src: string, record: Record)
    requires InStep(y) && Steady(y.sink, c) && y.sink.queuedBytes + |record.payload| <= c.queueMax
    ensures var z := Deliver(y, src, record);
            InStep(z) && Steady(z.sink, c) && z.sink.queuedBytes == y.sink.queuedBytes + |record.payload| &&
            (y.net.paused ==> z.net.paused) && z.net == y.net.(paused := z.net.paused)
  {
    InStepDeliverOne(y, src, record);
    SteadySubmit(y.sink, c, record, src);
    SignalsSubmit(y.sink, record, src);
    FollowSets(y, Submit(y.sink, record, src).0);
  }

  /** With room for all of them, records are accepted and can only pause the transport. */
  lemma {:induction false} DeliverSteady(y: System, c: Config, src: string, records: seq<Record>)
    requires InStep(y) && Steady(y.sink, c) && y.sink.queuedBytes + TotalPayload(records) <= c.queueMax
    ensures var z := DeliverAll(y, src, records);
            InStep(z) && Steady(z.sink, c) && z.sink.queuedBytes == y.sink.queuedBytes + TotalPayload(records) &&
            (y.net.paused ==> z.net.paused) && z.net == y.net.(paused := z.net.paused)
  {
    if records != [] {
      var n := |records| - 1;
      assert records == records[..n] + [records[n]];
      TotalPayloadAppend(records[..n], [records[n]]);
      OnePayload(records[n]);
      DeliverSteady(y, c, src, records[..n]);
      DeliverOneSteady(DeliverAll(y, src, records[..n]), c, src, records[n]);
    }
  }

  // ----- The room that pausing leaves ------------------------------------

  function Live(net: Net): set<string> {
    set src | src in net.peers && !net.peers[src].status.Closed?
  }

  function Readers(net: Net): set<string> {
    set src | src in net.peers && net.peers[src].status.Reading?
  }

  /** The limits of a run: configuration, framing, peers at a time, bytes per read. */
  datatype Limits = Limits(cfg: Config, mode: Mode, max: nat, peers: nat, chunk: nat) {
    predicate Valid() {
      cfg.Valid() && cfg.enabled && max > 0 && chunk > 0
    }

    function BurstSize(): nat
      requires Valid()
    {
      Burst(mode, max, chunk)
    }

    /** The most that is ever queued. */
    function Top(): nat
      requires Valid()
    {
      cfg.high - 1 + peers * BurstSize()
    }
  }

  ghost predicate FramersSound(net: Net) {
    forall src | src in net.peers :: Sound(net.mode, net.max, net.peers[src].framer)
  }

  /** While paused, there is room for a burst of every peer past the gate. */
  ghost predicate Room(lim: Limits, y: System)
    requires lim.Valid()
  {
    y.net.mode == lim.mode && y.net.max == lim.max && |Live(y.net)| <= lim.peers && FramersSound(y.net) &&
    y.sink.queuedBytes + (if y.net.paused then |Readers(y.net)| * lim.BurstSize() else 0) <= lim.Top()
  }

  ghost predicate Roomy(lim: Limits, y: System) {
    lim.Valid() && InStep(y) && Steady(y.sink, lim.cfg) && Room(lim, y) && lim.Top() <= lim.cfg.queueMax
  }

  lemma Product(a: nat, b: nat, e: nat)
    requires a <= b
    ensures a * e <= b * e && (b + 1) * e == b * e + e
  {
  }

  lemma Fewer(a: set<string>, b: set<string>)
    requires a <= b
    ensures |a| <= |b|
  {
    if a != b {
      var rest := b - a;
      assert b == a + rest;
    }
  }

  lemma ReadersLive(net: Net)
    ensures |Readers(net)| <= |Live(net)|
  {
    Fewer(Readers(net), Live(net));
  }

  /** A live peer has its burst of room, and there is still room for the other readers' bursts. */
  lemma RoomForOne(lim: Limits, y: System, src: string)
    requires lim.Valid() && Room(lim, y) && src in Readers(y.net)
    requires !y.net.paused ==> y.sink.queuedBytes < lim.cfg.high
    ensures var e := lim.BurstSize();
            y.sink.queuedBytes + e + |Readers(y.net) - {src}| * e <= lim.Top()
  {
    var e, rest := lim.BurstSize(), Readers(y.net) - {src};
    assert Readers(y.net) == rest + {src};
    ReadersLive(y.net);
    Product(|rest| + 1, lim.peers, e);
    Product(|rest|, |rest|, e);
  }

  // ----- Steps keep the room ---------------------------------------------

  /** Only `src` changes, it does not read while paused, and at most `more` bytes are queued. */
  ghost predicate Moves(y: System, z: System, src: string, more: nat) {
    src in z.net.peers && z.net == y.net.(paused := z.net.paused, peers := y.net.peers[src := z.net.peers[src]]) &&
    Sound(z.net.mode, z.net.max, z.net.peers[src].framer) &&
    (z.net.paused ==> !z.net.peers[src].status.Reading?) &&
    z.sink.queuedBytes <= y.sink.queuedBytes + more
  }

  function Trailing(net: Net, src: string): seq<Record>
    requires src in net.peers
  {
    Optional(Flushed(net.mode, net.max, net.peers[src].framer).1)
  }

  lemma FinishSteady(y: System, c: Config, src: string)
    requires InStep(y) && Steady(y.sink, c) && src in y.net.peers
    requires Sound(y.net.mode, y.net.max, y.net.peers[src].framer)
    requires y.sink.queuedBytes + TotalPayload(Trailing(y.net, src)) <= c.queueMax
    ensures var z := Finish(y, src);
            InStep(z) && Steady(z.sink, c) && Moves(y, z, src, TotalPayload(Trailing(y.net, src)))
  {
    var peer := y.net.peers[src];
    var (framer, record) := Flushed(y.net.mode, y.net.max, peer.framer);
    FlushBudget(y.net.mode, y.net.max, peer.framer);
    var left := peer.(framer := framer, status := Closed, flushed := true);
    InStepPeer(y, src, left);
    DeliverSteady(WithPeer(y, src, left), c, src, Optional(record));
  }

  lemma GateSteady(y: System, c: Config, src: string)
    requires InStep(y) && Steady(y.sink, c) && src in y.net.peers
    requires Sound(y.net.mode, y.net.max, y.net.peers[src].framer)
    requires y.sink.queuedBytes + TotalPayload(Trailing(y.net, src)) <= c.queueMax
    ensures var z := Gate(y, src);
            InStep(z) && Steady(z.sink, c) && Moves(y, z, src, TotalPayload(Trailing(y.net, src)))
  {
    if !y.net.running {
      FinishSteady(y, c, src);
    } else {
      InStepGate(y, src);
    }
  }

  lemma MovesTrans(y: System, z: System, u: System, src: string, peer: Peer, more: nat, extra: nat)
    requires z.net == y.net.(paused := z.net.paused, peers := y.net.peers[src := peer])
    requires z.sink.queuedBytes == y.sink.queuedBytes + more && Moves(z, u, src, extra)
    ensures Moves(y, u, src, more + extra)
  {
    assert y.net.peers[src := peer][src := u.net.peers[src]] == y.net.peers[src := u.net.peers[src]];
  }

  /** A peer past the gate uses at most its burst of room and, if paused, gives up its place. */
  lemma RoomAfter(lim: Limits, y: System, z: System, src: string)
    requires lim.Valid() && Room(lim, y) && src in Readers(y.net)
    requires !y.net.paused ==> y.sink.queuedBytes < lim.cfg.high
    requires Moves(y, z, src, lim.BurstSize())
    requires !z.net.paused ==> z.sink.queuedBytes < lim.cfg.high
    ensures Room(lim, z)
  {
    RoomForOne(lim, y, src);
    Fewer(Live(z.net), Live(y.net));
    if z.net.paused {
      assert Readers(z.net) == Readers(y.net) - {src};
    }
  }

  /** A peer whose framer just produced `records` delivers them and returns to the gate. */
  lemma DeliverMoves(y: System, c: Config, src: string, next: Peer, records: seq<Record>, more: nat)
    requires InStep(y) && Steady(y.sink, c) && next.status.Reading? && Sound(y.net.mode, y.net.max, next.framer)
    requires TotalPayload(records) + TotalPayload(Optional(Flushed(y.net.mode, y.net.max, next.framer).1)) <= more
    requires y.sink.queuedBytes + more <= c.queueMax
    ensures src in DeliverAll(WithPeer(y, src, next), src, records).net.peers
    ensures var z := Gate(DeliverAll(WithPeer(y, src, next), src, records), src);
            InStep(z) && Steady(z.sink, c) && Moves(y, z, src, more)
  {
    var fed := WithPeer(y, src, next);
    InStepPeer(y, src, next);
    DeliverKeepsPeers(fed, src, records);
    DeliverSteady(fed, c, src, records);
    var z := DeliverAll(fed, src, records);
    GateSteady(z, c, src);
    MovesTrans(y, z, Gate(z, src), src, next, TotalPayload(records), TotalPayload(Trailing(z.net, src)));
  }

  lemma RoomyAfter(lim: Limits, y: System, z: System, src: string)
    requires Roomy(lim, y) && src in Readers(y.net)
    requires InStep(z) && Steady(z.sink, lim.cfg) && Moves(y, z, src, lim.BurstSize())
    ensures Roomy(lim, z)
  {
    RoomAfter(lim, y, z, src);
  }

  /** The premises of one peer's burst. */
  lemma RoomyPeer(lim: Limits, y: System, src: string)
    requires Roomy(lim, y) && src in Readers(y.net)
    ensures Sound(y.net.mode, y.net.max, y.net.peers[src].framer)
    ensures lim.BurstSize() == Burst(y.net.mode, y.net.max, lim.chunk)
    ensures y.sink.queuedBytes + lim.BurstSize() <= lim.cfg.queueMax
  {
    RoomForOne(lim, y, src);
    Product(0, |Readers(y.net) - {src}|, lim.BurstSize());
  }

  lemma ReadMoves(y: System, c: Config, burst: nat, limit: nat, src: string, chunk: Bytes)
    requires InStep(y) && Steady(y.sink, c) && src in Readers(y.net) && 0 < |chunk| <= limit
    requires Sound(y.net.mode, y.net.max, y.net.peers[src].framer)
    requires y.net.max > 0 && burst == Burst(y.net.mode, y.net.max, limit) && y.sink.queuedBytes + burst <= c.queueMax
    ensures var z := DoRead(y, src, chunk);
            InStep(z) && Steady(z.sink, c) && Moves(y, z, src, burst)
  {
    var peer := y.net.peers[src];
    var (framer, records) := Fed(y.net.mode, y.net.max, peer.framer, chunk);
    ReadFits(y.net.mode, y.net.max, limit, peer.framer, chunk);
    FeedBudget(y.net.mode, y.net.max, peer.framer, chunk);
    DeliverMoves(y, c, src, peer.(framer := framer, chunks := peer.chunks + [chunk]), records, burst);
  }

  lemma RoomyRead(lim: Limits, y: System, src: string, chunk: Bytes)
    requires Roomy(lim, y) && |chunk| <= lim.chunk
    ensures Roomy(lim, DoRead(y, src, chunk))
  {
    if src in Readers(y.net) && chunk != [] {
      RoomyPeer(lim, y, src);
      ReadMoves(y, lim.cfg, lim.BurstSize(), lim.chunk, src, chunk);
      RoomyAfter(lim, y, DoRead(y, src, chunk), src);
    }
  }

  lemma EofMoves(y: System, c: Config, burst: nat, limit: nat, src: string)
    requires InStep(y) && Steady(y.sink, c) && src in Readers(y.net) && limit > 0
    requires Sound(y.net.mode, y.net.max, y.net.peers[src].framer)
    requires y.net.max > 0 && burst == Burst(y.net.mode, y.net.max, limit) && y.sink.queuedBytes + burst <= c.queueMax
    ensures var z := DoEof(y, src);
            InStep(z) && Steady(z.sink, c) && Moves(y, z, src, burst)
  {
    FlushFits(y.net.mode, y.net.max, limit, y.net.peers[src].framer);
    FinishSteady(y, c, src);
  }

  lemma RoomyEof(lim: Limits, y: System, src: string)
    requires Roomy(lim, y)
    ensures Roomy(lim, DoEof(y, src))
  {
    if src in Readers(y.net) {
      RoomyPeer(lim, y, src);
      EofMoves(y, lim.cfg, lim.BurstSize(), lim.chunk, src);
      RoomyAfter(lim, y, DoEof(y, src), src);
    }
  }

  lemma EmptyTrailing(mode: Mode, max: nat)
    ensures Sound(mode, max, Empty) && Optional(Flushed(mode, max, Empty).1) == []
  {
  }

  lemma ConnectMoves(y: System, c: Config, src: string)
    requires InStep(y) && Steady(y.sink, c) && y.sink.queuedBytes <= c.queueMax
    requires src in y.net.peers ==> y.net.peers[src].status.Closed?
    ensures var z := DoConnect(y, src);
            InStep(z) && Steady(z.sink, c) && Moves(y, z, src, 0) && z.net.paused == y.net.paused
  {
    var peer := Arriving(y.net, src);
    InStepPeer(y, src, peer);
    EmptyTrailing(y.net.mode, y.net.max);
    GateSteady(WithPeer(y, src, peer), c, src);
    MovesTrans(y, WithPeer(y, src, peer), DoConnect(y, src), src, peer, 0, 0);
  }

  lemma RoomJoined(lim: Limits, y: System, z: System, src: string)
    requires lim.Valid() && Room(lim, y) && |Live(y.net)| < lim.peers && src !in Readers(y.net)
    requires Moves(y, z, src, 0) && (z.net.paused ==> y.net.paused)
    requires !z.net.paused ==> z.sink.queuedBytes < lim.cfg.high
    ensures Room(lim, z)
  {
    Fewer(Live(z.net), Live(y.net) + {src});
    if z.net.paused {
      Fewer(Readers(z.net), Readers(y.net));
      Product(|Readers(z.net)|, |Readers(y.net)|, lim.BurstSize());
    } else {
      Product(0, lim.peers, lim.BurstSize());
    }
  }

  lemma RoomyConnect(lim: Limits, y: System, src: string)
    requires Roomy(lim, y) && |Live(y.net)| < lim.peers
    ensures Roomy(lim, DoConnect(y, src))
  {
    if src in y.net.peers ==> y.net.peers[src].status.Closed? {
      ConnectMoves(y, lim.cfg, src);
      RoomJoined(lim, y, DoConnect(y, src), src);
    }
  }

  lemma RoomyCancel(lim: Limits, y: System, src: string)
    requires Roomy(lim, y)
    ensures Roomy(lim, DoCancel(y, src))
  {
    var z := DoCancel(y, src);
    if src in y.net.peers && !y.net.peers[src].status.Closed? {
      InStepPeer(y, src, y.net.peers[src].(status := Closed));
      Fewer(Live(z.net), Live(y.net));
      Fewer(Readers(z.net), Readers(y.net));
      Product(|Readers(z.net)|, |Readers(y.net)|, lim.BurstSize());
    }
  }

  lemma RoomyStop(lim: Limits, y: System)
    requires Roomy(lim, y)
    ensures Roomy(lim, y.(net := y.net.(running := false)))
  {
    var z := y.(net := y.net.(running := false));
    assert Live(z.net) == Live(y.net) && Readers(z.net) == Readers(y.net);
  }

  lemma WokenLive(net: Net)
    ensures Live(net.(paused := false, peers := Woken(net.peers))) == Live(net)
  {
  }

  /** A sink step that only relieves leaves the room, also when it wakes every waiting peer. */
  lemma RoomRelieved(lim: Limits, y: System, t: Sink)
    requires lim.Valid() && Room(lim, y) && y.net.paused == y.sink.backpressured
    requires t.queuedBytes <= y.sink.queuedBytes && (t.backpressured ==> y.sink.backpressured)
    requires !t.backpressured ==> t.queuedBytes < lim.cfg.high
    ensures Room(lim, System(t, SetPaused(y.net, t.backpressured)))
  {
    if t.backpressured {
      assert SetPaused(y.net, true) == y.net;
    } else if y.net.paused {
      WokenLive(y.net);
      Product(0, lim.peers, lim.BurstSize());
    }
  }

  lemma RoomySink(lim: Limits, y: System, a: Action)
    requires Roomy(lim, y) && Legal(a) && !a.DoSubmit? && (a.DoConfigure? ==> SameLimits(a.cfg, lim.cfg))
    ensures Roomy(lim, Follow(y, Apply(y.sink, a)))
  {
    SteadyStep(y.sink, lim.cfg, a);
    InStepFollow(y, a);
    SignalsStep(y.sink, a);
    FollowSets(y, Apply(y.sink, a));
    RoomRelieved(lim, y, Apply(y.sink, a));
  }

  // ----- Runs ------------------------------------------------------------

  /** What the limits ask of one step. */
  ghost predicate Fits(lim: Limits, y: System, step: Step) {
    Allowed(step) &&
    match step
    case Connect(_) => |Live(y.net)| < lim.peers
    case Read(_, chunk) => |chunk| <= lim.chunk
    case SinkStep(a) => a.DoConfigure? ==> SameLimits(a.cfg, lim.cfg)
    case _ => true
  }

  ghost predicate AllFit(lim: Limits, y: System, steps: seq<Step>)
    requires FileReady(y.sink)
    decreases |steps|
  {
    steps != [] ==>
      AllFit(lim, y, steps[..|steps| - 1]) && Fits(lim, RunAll(y, steps[..|steps| - 1]), steps[|steps| - 1])
  }

  lemma RoomyNext(lim: Limits, y: System, step: Step)
    requires Roomy(lim, y) && Fits(lim, y, step)
    ensures Roomy(lim, Next(y, step))
  {
    match step
    case Connect(src) => RoomyConnect(lim, y, src);
    case Read(src, chunk) => RoomyRead(lim, y, src, chunk);
    case Eof(src) => RoomyEof(lim, y, src);
    case Cancel(src) => RoomyCancel(lim, y, src);
    case StopTransport => RoomyStop(lim, y);
    case SinkStep(action) => RoomySink(lim, y, action);
  }

  lemma {:induction false} RoomyRun(lim: Limits, y: System, steps: seq<Step>)
    requires Roomy(lim, y) && AllFit(lim, y, steps)
    ensures Roomy(lim, RunAll(y, steps))
  {
    if steps != [] {
      var n := |steps| - 1;
      RoomyRun(lim, y, steps[..n]);
      RoomyNext(lim, RunAll(y, steps[..n]), steps[n]);
    }
  }

  lemma RoomyFresh(lim: Limits, disk: Disk)
    requires lim.Valid() && lim.Top() <= lim.cfg.queueMax
    ensures Roomy(lim, Fresh(lim.cfg, disk, lim.mode, lim.max))
  {
    FreshInStep(lim.cfg, disk, lim.mode, lim.max);
    SteadyStep(Initial(lim.cfg, disk), lim.cfg, DoStart);
    assert Live(Fresh(lim.cfg, disk, lim.mode, lim.max).net) == {};
    Product(0, lim.peers, lim.BurstSize());
  }

  /**
   With room for one burst of every peer above the high watermark, no run ever drops a record,
   however reads, drains, connections, the shutdown of the transport and live changes of file,
   format and rotation interleave.
   */
  lemma {:induction false} NoRecordDropped(lim: Limits, disk: Disk, steps: seq<Step>)
    requires lim.Valid() && lim.Top() <= lim.cfg.queueMax
    requires AllFit(lim, Fresh(lim.cfg, disk, lim.mode, lim.max), steps)
    ensures var y := RunAll(Fresh(lim.cfg, disk, lim.mode, lim.max), steps);
            y.sink.stats.recordsDropped == 0 && y.sink.queuedBytes <= lim.Top()
  {
    var y := Fresh(lim.cfg, disk, lim.mode, lim.max);
    RoomyFresh(lim, disk);
    RoomyRun(lim, y, steps);
    Product(0, |Readers(RunAll(y, steps).net)|, lim.BurstSize());
  }
}
