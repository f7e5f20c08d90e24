/** From the bytes of every peer to the records of the sink: nothing lost, repeated or reordered. */
module EndToEnd {
  import opened Splitting
  import opened Framing
  import opened Chunking
  import opened SinkSteps
  import opened SinkRuns
  import opened SinkClaims
  import opened ReceiverSteps
  import opened ReceiverPause
  import opened ReceiverCapacity

  // ----- The pipeline's sink makes a run of its own ----------------------

  lemma RunOneMore(s: Sink, actions: seq<Action>, a: Action)
    requires FileReady(s)
    ensures Run(s, actions + [a]) == Apply(Run(s, actions), a)
  {
    assert (actions + [a])[..|actions|] == actions;
  }

  ghost predicate RunsTo(s: Sink, actions: seq<Action>, t: Sink) {
    FileReady(s) && Run(s, actions) == t && forall a | a in actions :: Legal(a)
  }

  lemma {:induction false} DeliverRuns(s: Sink, actions: seq<Action>, y: System, src: string, records: seq<Record>) returns (more: seq<Action>)
    requires RunsTo(s, actions, y.sink)
    ensures RunsTo(s, actions + more, DeliverAll(y, src, records).sink)
    ensures forall a | a in more :: a.DoSubmit?
  {
    if records == [] {
      more := [];
      assert actions + more == actions;
    } else {
      var n := |records| - 1;
      more := DeliverRuns(s, actions, y, src, records[..n]);
      RunOneMore(s, actions + more, DoSubmit(records[n], src));
      Associative(actions, more, [DoSubmit(records[n], src)]);
      more := more + [DoSubmit(records[n], src)];
    }
  }

  lemma GateRuns(s: Sink, actions: seq<Action>, y: System, src: string) returns (more: seq<Action>)
    requires RunsTo(s, actions, y.sink) && src in y.net.peers
    ensures RunsTo(s, actions + more, Gate(y, src).sink)
    ensures forall a | a in more :: a.DoSubmit?
  {
    if !y.net.running {
      more := FinishRuns(s, actions, y, src);
    } else {
      more := [];
      assert actions + more == actions;
    }
  }

  lemma FinishRuns(s: Sink, actions: seq<Action>, y: System, src: string) returns (more: seq<Action>)
    requires RunsTo(s, actions, y.sink) && src in y.net.peers
    ensures RunsTo(s, actions + more, Finish(y, src).sink)
    ensures forall a | a in more :: a.DoSubmit?
  {
    var peer := y.net.peers[src];
    var (framer, record) := Flushed(y.net.mode, y.net.max, peer.framer);
    var left := peer.(framer := framer, status := Closed, flushed := true);
    more := DeliverRuns(s, actions, WithPeer(y, src, left), src, Optional(record));
  }

  lemma ReadRuns(s: Sink, actions: seq<Action>, y: System, src: string, chunk: Bytes) returns (more: seq<Action>)
    requires RunsTo(s, actions, y.sink) && src in Readers(y.net) && chunk != []
    ensures RunsTo(s, actions + more, DoRead(y, src, chunk).sink)
    ensures forall a | a in more :: a.DoSubmit?
  {
    var peer := y.net.peers[src];
    var (framer, records) := Fed(y.net.mode, y.net.max, peer.framer, chunk);
    var fed := WithPeer(y, src, peer.(framer := framer, chunks := peer.chunks + [chunk]));
    more := DeliverRuns(s, actions, fed, src, records);
    DeliverKeepsPeers(fed, src, records);
    var last := GateRuns(s, actions + more, DeliverAll(fed, src, records), src);
    Associative(actions, more, last);
    more := more + last;
  }

  /** What a pipeline step adds to the sink's run: submissions, or the sink's own step. */
  ghost predicate Added(step: Step, more: seq<Action>) {
    forall a | a in more :: a.DoSubmit? || (step.SinkStep? && a == step.action)
  }

  lemma NextRuns(s: Sink, actions: seq<Action>, y: System, step: Step) returns (more: seq<Action>)
    requires RunsTo(s, actions, y.sink) && Allowed(step)
    ensures RunsTo(s, actions + more, Next(y, step).sink) && Added(step, more)
  {
    more := [];
    assert actions + more == actions;
    match step
    case Connect(src) =>
      if src in y.net.peers ==> y.net.peers[src].status.Closed? {
        more := GateRuns(s, actions, WithPeer(y, src, Arriving(y.net, src)), src);
      }
    case Read(src, chunk) =>
      if src in Readers(y.net) && chunk != [] {
        more := ReadRuns(s, actions, y, src, chunk);
      }
    case Eof(src) =>
      if src in Readers(y.net) {
        more := FinishRuns(s, actions, y, src);
      }
    case Cancel(src) =>
    case StopTransport =>
    case SinkStep(action) =>
      RunOneMore(s, actions, action);
      more := [action];
  }

  /** Every run of the pipeline is a run of its sink, with the same reconfigurations. */
  lemma {:induction false} PipelineRuns(y: System, steps: seq<Step>) returns (actions: seq<Action>)
    requires FileReady(y.sink) && forall step | step in steps :: Allowed(step)
    ensures RunsTo(y.sink, actions, RunAll(y, steps).sink)
    ensures forall a | a in actions :: a.DoSubmit? || SinkStep(a) in steps
    decreases |steps|
  {
    if steps == [] {
      actions := [];
    } else {
      var n := |steps| - 1;
      actions := PipelineRuns(y, steps[..n]);
      var more := NextRuns(y.sink, actions, RunAll(y, steps[..n]), steps[n]);
      actions := actions + more;
    }
  }

  // ----- The records of one peer -----------------------------------------

  function FromSrc(items: seq<Item>, src: string): seq<Record> {
    if items == [] then []
    else
      var n := |items| - 1;
      FromSrc(items[..n], src) + if items[n].src == src then [items[n].record] else []
  }

  lemma {:induction false} FromSrcAppend(a: seq<Item>, b: seq<Item>, src: string)
    ensures FromSrc(a + b, src) == FromSrc(a, src) + FromSrc(b, src)
  {
    if b == [] {
      assert a + b == a;
    } else {
      var n := |b| - 1;
      FromSrcAppend(a, b[..n], src);
      assert (a + b)[..|a| + n] == a + b[..n];
      Associative(FromSrc(a, src), FromSrc(b[..n], src), if b[n].src == src then [b[n].record] else []);
    }
  }

  lemma FromSrcOne(item: Item, src: string)
    ensures FromSrc([item], src) == if item.src == src then [item.record] else []
  {
    assert [item][..0] == [];
    assert FromSrc([], src) == [];
  }

  /** Control items come from no peer. */
  lemma {:induction false} FromSrcKept(items: seq<Item>, src: string)
    requires src != "" && forall item | item in items && item.stop :: item.src == ""
    ensures FromSrc(Kept(items), src) == FromSrc(items, src)
  {
    if items != [] {
      FromSrcKept(items[1..], src);
      assert items == [items[0]] + items[1..];
      FromSrcAppend([items[0]], items[1..], src);
      FromSrcOne(items[0], src);
      FromSrcAppend(if IsControl(items[0]) then [] else [items[0]], Kept(items[1..]), src);
    }
  }

  /** What a framer has reported of one connection: so far, or including the flush at the end. */
  function ReportedOf(mode: Mode, max: nat, stream: Stream): seq<Record> {
    var (st, out) := FeedAll(mode, max, stream.chunks);
    if stream.flushed then out + Optional(Flushed(mode, max, st).1) else out
  }

  function ReportedAll(mode: Mode, max: nat, streams: seq<Stream>): seq<Record> {
    if streams == [] then []
    else
      var n := |streams| - 1;
      ReportedAll(mode, max, streams[..n]) + ReportedOf(mode, max, streams[n])
  }

  /** All connections of the peer's address. */
  function Connections(peer: Peer): seq<Stream> {
    peer.earlier + [Stream(peer.chunks, peer.flushed)]
  }

  /** What the framers of the peer's address have reported. */
  function Reported(net: Net, peer: Peer): seq<Record> {
    ReportedAll(net.mode, net.max, Connections(peer))
  }

  lemma ReportedIs(net: Net, peer: Peer)
    ensures Reported(net, peer) ==
              ReportedAll(net.mode, net.max, peer.earlier) +
              ReportedOf(net.mode, net.max, Stream(peer.chunks, peer.flushed))
  {
    assert Connections(peer)[..|peer.earlier|] == peer.earlier;
  }

  /** A connection reports more: so does its address. */
  lemma ReportedMore(net: Net, peer: Peer, next: Peer, more: seq<Record>)
    requires next.earlier == peer.earlier
    requires ReportedOf(net.mode, net.max, Stream(next.chunks, next.flushed)) ==
               ReportedOf(net.mode, net.max, Stream(peer.chunks, peer.flushed)) + more
    ensures Reported(net, next) == Reported(net, peer) + more
  {
    ReportedIs(net, peer);
    ReportedIs(net, next);
    Associative(ReportedAll(net.mode, net.max, peer.earlier),
                ReportedOf(net.mode, net.max, Stream(peer.chunks, peer.flushed)), more);
  }

  lemma ReportedSame(net: Net, peer: Peer, next: Peer)
    requires next == peer.(status := next.status)
    ensures Reported(net, next) == Reported(net, peer) + []
  {
    var reported := ReportedOf(net.mode, net.max, Stream(peer.chunks, peer.flushed));
    assert reported + [] == reported;
    ReportedMore(net, peer, next, []);
  }

  /** A new connection has reported nothing yet. */
  lemma ReportedArriving(net: Net, src: string)
    ensures Reported(net, Arriving(net, src)) == if src in net.peers then Reported(net, net.peers[src]) else []
  {
    ReportedIs(net, Arriving(net, src));
    if src in net.peers {
      assert Arriving(net, src).earlier == Connections(net.peers[src]);
    }
  }

  /** A peer's framer is where its chunks have brought it, and nothing follows a flush. */
  ghost predicate Coherent(net: Net, peer: Peer) {
    if peer.flushed then peer.status.Closed?
    else peer.framer == FeedAll(net.mode, net.max, peer.chunks).0
  }

  ghost predicate Enabled(s: Sink) {
    s.cfg.enabled && (s.pending.Some? ==> s.pending.value.enabled)
  }

  /** If nothing was dropped, the sink has accepted what the peers reported, but for `owed` of `one`. */
  ghost predicate Owing(y: System, one: string, owed: seq<Record>) {
    Enabled(y.sink) &&
    (forall src | src in y.net.peers :: Coherent(y.net, y.net.peers[src])) &&
    (y.sink.stats.recordsDropped == 0 ==> forall src :: Owes(y, one, owed, src))
  }

  ghost predicate Owes(y: System, one: string, owed: seq<Record>, src: string) {
    FromSrc(y.sink.past.accepted, src) + (if src == one then owed else []) ==
      if src in y.net.peers then Reported(y.net, y.net.peers[src]) else []
  }

  /** Same peers, whose statuses differ at most in waiting or reading. */
  ghost predicate SameStreams(a: Net, b: Net) {
    a.mode == b.mode && a.max == b.max && a.peers.Keys == b.peers.Keys &&
    forall src | src in a.peers ::
      b.peers[src] == a.peers[src].(status := b.peers[src].status) &&
      (b.peers[src].status.Closed? <==> a.peers[src].status.Closed?)
  }

  lemma SetPausedStreams(net: Net, paused: bool)
    ensures SameStreams(net, SetPaused(net, paused))
  {
  }

  lemma {:induction false} HeedStreams(net: Net, events: seq<Event>)
    ensures SameStreams(net, Heed(net, events))
  {
    if events != [] {
      var earlier := Heed(net, events[..|events| - 1]);
      HeedStreams(net, events[..|events| - 1]);
      SetPausedStreams(earlier, true);
      SetPausedStreams(earlier, false);
    }
  }

  /** The streams stay the same, the sink accepts nothing more, and `owed` is divided in the same way. */
  lemma OwingSame(y: System, z: System, one: string, owed: seq<Record>)
    requires Owing(y, one, owed) && Silent(y.sink, z.sink) && SameStreams(y.net, z.net)
    ensures Owing(z, one, owed)
  {
    if z.sink.stats.recordsDropped == 0 {
      forall src ensures Owes(z, one, owed, src) {
        assert Owes(y, one, owed, src);
      }
    }
  }

  lemma OwingFollow(y: System, t: Sink, one: string, owed: seq<Record>)
    requires Owing(y, one, owed) && Silent(y.sink, t)
    ensures Owing(Follow(y, t), one, owed)
  {
    if |y.sink.events| <= |t.events| {
      HeedStreams(y.net, t.events[|y.sink.events|..]);
    }
    OwingSame(y, Follow(y, t), one, owed);
  }

  lemma OwingDeliverOne(y: System, src: string, record: Record, rest: seq<Record>)
    requires Owing(y, src, [record] + rest)
    ensures Owing(Deliver(y, src, record), src, rest)
  {
    var t := Submit(y.sink, record, src).0;
    if t.stats.recordsDropped == 0 {
      assert t.past.accepted == y.sink.past.accepted + [Item(record, src, false)];
      forall other ensures Owes(System(t, y.net), src, rest, other) {
        assert Owes(y, src, [record] + rest, other);
        FromSrcAppend(y.sink.past.accepted, [Item(record, src, false)], other);
        FromSrcOne(Item(record, src, false), other);
        EmptyRight(FromSrc(y.sink.past.accepted, other));
        Associative(FromSrc(y.sink.past.accepted, src), [record], rest);
      }
    }
    assert Owing(System(t, y.net), src, rest);
    OwingDelivered(y, t, src, rest);
  }

  lemma OwingDelivered(y: System, t: Sink, src: string, rest: seq<Record>)
    requires Owing(System(t, y.net), src, rest)
    ensures Owing(Follow(y, t), src, rest)
  {
    if |y.sink.events| <= |t.events| {
      HeedStreams(y.net, t.events[|y.sink.events|..]);
    }
    OwingSame(System(t, y.net), Follow(y, t), src, rest);
  }

  lemma {:induction false} OwingDeliver(y: System, src: string, records: seq<Record>, rest: seq<Record>)
    requires Owing(y, src, records + rest)
    ensures Owing(DeliverAll(y, src, records), src, rest)
  {
    if records == [] {
      assert records + rest == rest;
    } else {
      var n := |records| - 1;
      assert records + rest == records[..n] + ([records[n]] + rest);
      OwingDeliver(y, src, records[..n], [records[n]] + rest);
      OwingDeliverOne(DeliverAll(y, src, records[..n]), src, records[n], rest);
    }
  }

  lemma OwingNobody(y: System, src: string, other: string)
    requires Owing(y, src, [])
    ensures Owing(y, other, [])
  {
    if y.sink.stats.recordsDropped == 0 {
      forall one ensures Owes(y, other, [], one) {
        assert Owes(y, src, [], one);
      }
    }
  }

  lemma OwingPeer(y: System, src: string, peer: Peer, owed: seq<Record>)
    requires Owing(y, src, []) && Coherent(y.net, peer)
    requires Reported(y.net, peer) == (if src in y.net.peers then Reported(y.net, y.net.peers[src]) else []) + owed
    ensures Owing(WithPeer(y, src, peer), src, owed)
  {
    if y.sink.stats.recordsDropped == 0 {
      forall other ensures Owes(WithPeer(y, src, peer), src, owed, other) {
        assert Owes(y, src, [], other);
        EmptyRight(FromSrc(y.sink.past.accepted, other));
      }
    }
  }

  lemma OwingFinish(y: System, src: string)
    requires Owing(y, src, []) && src in y.net.peers && !y.net.peers[src].flushed
    ensures Owing(Finish(y, src), src, [])
  {
    var peer := y.net.peers[src];
    var (framer, record) := Flushed(y.net.mode, y.net.max, peer.framer);
    var left := peer.(framer := framer, status := Closed, flushed := true);
    ReportedMore(y.net, peer, left, Optional(record));
    OwingPeer(y, src, left, Optional(record));
    assert Optional(record) + [] == Optional(record);
    OwingDeliver(WithPeer(y, src, left), src, Optional(record), []);
  }

  lemma OwingGate(y: System, src: string)
    requires Owing(y, src, []) && src in y.net.peers && !y.net.peers[src].flushed
    ensures Owing(Gate(y, src), src, [])
  {
    if !y.net.running {
      OwingFinish(y, src);
    } else {
      var peer := y.net.peers[src].(status := if y.net.paused then Waiting else Reading);
      ReportedSame(y.net, y.net.peers[src], peer);
      OwingPeer(y, src, peer, []);
    }
  }

  lemma FeedAllMore(mode: Mode, max: nat, chunks: seq<Bytes>, chunk: Bytes)
    ensures var (st, out) := FeedAll(mode, max, chunks);
            var (st', more) := Fed(mode, max, st, chunk);
            FeedAll(mode, max, chunks + [chunk]) == (st', out + more)
  {
    assert (chunks + [chunk])[..|chunks|] == chunks;
  }

  lemma {:induction false} DeliverKeepsOpen(y: System, src: string, records: seq<Record>)
    ensures SameStreams(y.net, DeliverAll(y, src, records).net)
  {
    if records != [] {
      var n := |records| - 1;
      var z := DeliverAll(y, src, records[..n]);
      DeliverKeepsOpen(y, src, records[..n]);
      var sink := Submit(z.sink, records[n], src).0;
      if |z.sink.events| <= |sink.events| {
        HeedStreams(z.net, sink.events[|z.sink.events|..]);
      }
    }
  }

  lemma OwingRead(y: System, src: string, chunk: Bytes)
    requires Owing(y, src, []) && src in Readers(y.net) && chunk != []
    ensures Owing(DoRead(y, src, chunk), src, [])
  {
    var peer := y.net.peers[src];
    var (framer, records) := Fed(y.net.mode, y.net.max, peer.framer, chunk);
    var next := peer.(framer := framer, chunks := peer.chunks + [chunk]);
    FeedAllMore(y.net.mode, y.net.max, peer.chunks, chunk);
    ReportedMore(y.net, peer, next, records);
    OwingPeer(y, src, next, records);
    assert records + [] == records;
    OwingDeliver(WithPeer(y, src, next), src, records, []);
    DeliverKeepsOpen(WithPeer(y, src, next), src, records);
    OwingGate(DeliverAll(WithPeer(y, src, next), src, records), src);
  }

  lemma OwingConnect(y: System, src: string)
    requires Owing(y, src, []) && (src in y.net.peers ==> y.net.peers[src].status.Closed?)
    ensures Owing(DoConnect(y, src), src, [])
  {
    var peer := Arriving(y.net, src);
    ReportedArriving(y.net, src);
    assert Reported(y.net, peer) + [] == Reported(y.net, peer);
    OwingPeer(y, src, peer, []);
    OwingGate(WithPeer(y, src, peer), src);
  }

  lemma OwingCancel(y: System, src: string)
    requires Owing(y, src, [])
    ensures Owing(DoCancel(y, src), src, [])
  {
    if src in y.net.peers && !y.net.peers[src].status.Closed? {
      var peer := y.net.peers[src].(status := Closed);
      ReportedSame(y.net, y.net.peers[src], peer);
      OwingPeer(y, src, peer, []);
    }
  }

  /** From `s` to `t` nothing was submitted. */
  ghost predicate Silent(s: Sink, t: Sink) {
    t.past.accepted == s.past.accepted && t.stats.recordsDropped == s.stats.recordsDropped &&
    (Enabled(s) ==> Enabled(t))
  }

  lemma SilentDrain(s: Sink, line: Bytes)
    requires FileReady(s)
    ensures Silent(s, Drain(s, line))
  {
    if s.task.Running? && s.queue != [] {
      var a := ApplyPending(s.(queue := s.queue[1..]));
      assert Silent(s, a);
      SilentHandle(a, s.queue[0], line);
    }
  }

  lemma SilentHandle(s: Sink, item: Item, line: Bytes)
    requires FileReady(s)
    ensures Silent(s, Handle(s, item, line))
  {
    if !IsControl(item) {
      var (t, blob) := Persist(s, item, line);
      assert Silent(s, t);
      assert Silent(t, Release(t, item, blob));
    }
  }

  lemma SilentStep(s: Sink, a: Action)
    requires FileReady(s) && !a.DoSubmit?
    ensures (a.DoConfigure? ==> a.cfg.enabled) ==> Silent(s, Apply(s, a))
    ensures Apply(s, a).past.accepted == s.past.accepted
  {
    if a.DoDrain? {
      SilentDrain(s, a.line);
    }
  }

  /** Only records are accepted, no signs. */
  ghost predicate Plain(items: seq<Item>) {
    forall item | item in items :: !item.stop
  }

  lemma {:induction false} AcceptedPlain(s: Sink, actions: seq<Action>)
    requires FileReady(s) && Plain(s.past.accepted)
    ensures Plain(Run(s, actions).past.accepted)
  {
    if actions != [] {
      var n := |actions| - 1;
      AcceptedPlain(s, actions[..n]);
      if !actions[n].DoSubmit? {
        SilentStep(Run(s, actions[..n]), actions[n]);
      }
    }
  }

  /** No step disables the sink. */
  ghost predicate Keeps(step: Step) {
    Allowed(step) && (step.SinkStep? && step.action.DoConfigure? ==> step.action.cfg.enabled)
  }

  lemma OwingNext(y: System, step: Step)
    requires FileReady(y.sink) && Owing(y, "", []) && Keeps(step)
    ensures Owing(Next(y, step), "", [])
  {
    match step
    case Connect(src) => OwingNobody(y, "", src); if src in y.net.peers ==> y.net.peers[src].status.Closed? { OwingConnect(y, src); }
      OwingNobody(DoConnect(y, src), src, "");
    case Read(src, chunk) => OwingNobody(y, "", src); if src in Readers(y.net) && chunk != [] { OwingRead(y, src, chunk); }
      OwingNobody(DoRead(y, src, chunk), src, "");
    case Eof(src) => OwingNobody(y, "", src); if src in Readers(y.net) { OwingFinish(y, src); }
      OwingNobody(DoEof(y, src), src, "");
    case Cancel(src) => OwingNobody(y, "", src); OwingCancel(y, src); OwingNobody(DoCancel(y, src), src, "");
    case StopTransport => OwingSame(y, Next(y, step), "", []);
    case SinkStep(a) => SilentStep(y.sink, a); OwingFollow(y, Apply(y.sink, a), "", []);
  }

  lemma {:induction false} OwingRun(y: System, steps: seq<Step>)
    requires FileReady(y.sink) && Owing(y, "", []) && forall step | step in steps :: Keeps(step)
    ensures Owing(RunAll(y, steps), "", [])
    decreases |steps|
  {
    if steps != [] {
      var n := |steps| - 1;
      OwingRun(y, steps[..n]);
      var actions := PipelineRuns(y, steps[..n]);
      OwingNext(RunAll(y, steps[..n]), steps[n]);
    }
  }

  /** While the sink stays enabled and has dropped nothing, it has accepted all that the peers reported. */
  lemma {:induction false} AcceptedIsReported(cfg: Config, disk: Disk, mode: Mode, max: nat, steps: seq<Step>, src: string)
    requires cfg.enabled && forall step | step in steps :: Keeps(step)
    ensures var y := RunAll(Fresh(cfg, disk, mode, max), steps);
            y.sink.stats.recordsDropped == 0 ==>
              FromSrc(y.sink.past.accepted, src) == if src in y.net.peers then Reported(y.net, y.net.peers[src]) else []
  {
    var y := Fresh(cfg, disk, mode, max);
    forall other ensures Owes(y, "", [], other) {
    }
    OwingRun(y, steps);
    var z := RunAll(y, steps);
    if z.sink.stats.recordsDropped == 0 {
      assert Owes(z, "", [], src);
      EmptyRight(FromSrc(z.sink.past.accepted, src));
    }
  }

  // ----- Nothing lost ----------------------------------------------------

  /** Every configuration has a file to write to. */
  ghost predicate AlwaysWrites(lim: Limits, steps: seq<Step>) {
    lim.cfg.Target().Some? && forall step | step in steps && step.SinkStep? :: HasFile(step.action)
  }

  lemma {:induction false} AllFitKeeps(lim: Limits, y: System, steps: seq<Step>)
    requires FileReady(y.sink) && AllFit(lim, y, steps)
    ensures forall step | step in steps :: Keeps(step)
    decreases |steps|
  {
    if steps != [] {
      var n := |steps| - 1;
      AllFitKeeps(lim, y, steps[..n]);
      assert Keeps(steps[n]);
      forall step | step in steps ensures Keeps(step) {
        assert step in steps[..n] || step == steps[n];
      }
    }
  }

  /** The records of the pipeline's sink, written or queued, are the accepted ones, in order. */
  lemma {:induction false} PipelineExactlyOnce(lim: Limits, disk: Disk, steps: seq<Step>)
    requires lim.cfg.Valid() && AlwaysWrites(lim, steps) && forall step | step in steps :: Allowed(step)
    ensures var s := RunAll(Fresh(lim.cfg, disk, lim.mode, lim.max), steps).sink;
            Items(s.past.done) + Kept(s.queue) == Kept(s.past.accepted) &&
            forall o | o in s.past.done :: o.written.Some?
  {
    var actions := PipelineRuns(Fresh(lim.cfg, disk, lim.mode, lim.max), steps);
    forall a | a in actions ensures Legal(a) && HasFile(a) {
      if !a.DoSubmit? {
        assert SinkStep(a) in steps;
      }
    }
    RunAfter(Initial(lim.cfg, disk), DoStart, actions);
    ExactlyOnce(lim.cfg, disk, [DoStart] + actions);
  }

  /** What the sink holds from one peer: the written records, then the queued ones. */
  function Held(s: Sink, src: string): seq<Record> {
    FromSrc(Items(s.past.done), src) + FromSrc(Kept(s.queue), src)
  }

  /**
   Nothing lost, nothing twice, nothing out of order: with enough room above the high
   watermark, what is written and queued from a peer is all that its framer reported.
   */
  lemma {:induction false} NothingLost(lim: Limits, disk: Disk, steps: seq<Step>, src: string)
    requires lim.Valid() && lim.Top() <= lim.cfg.queueMax && src != ""
    requires AllFit(lim, Fresh(lim.cfg, disk, lim.mode, lim.max), steps) && AlwaysWrites(lim, steps)
    ensures var y := RunAll(Fresh(lim.cfg, disk, lim.mode, lim.max), steps);
            Held(y.sink, src) == (if src in y.net.peers then Reported(y.net, y.net.peers[src]) else []) &&
            forall o | o in y.sink.past.done :: o.written.Some?
  {
    var y := Fresh(lim.cfg, disk, lim.mode, lim.max);
    var z := RunAll(y, steps);
    AllFitKeeps(lim, y, steps);
    NoRecordDropped(lim, disk, steps);
    AcceptedIsReported(lim.cfg, disk, lim.mode, lim.max, steps, src);
    PipelineExactlyOnce(lim, disk, steps);
    FromSrcAppend(Items(z.sink.past.done), Kept(z.sink.queue), src);
    var actions := PipelineRuns(y, steps);
    AcceptedPlain(y.sink, actions);
    FromSrcKept(z.sink.past.accepted, src);
  }

  lemma RoomyLimits(lim: Limits, disk: Disk, steps: seq<Step>)
    requires lim.Valid() && lim.Top() <= lim.cfg.queueMax
    requires AllFit(lim, Fresh(lim.cfg, disk, lim.mode, lim.max), steps)
    ensures var y := RunAll(Fresh(lim.cfg, disk, lim.mode, lim.max), steps);
            y.net.mode == lim.mode && y.net.max == lim.max
  {
    RoomyFresh(lim, disk);
    RoomyRun(lim, Fresh(lim.cfg, disk, lim.mode, lim.max), steps);
  }
}
