/** The transport is paused exactly while the sink is backpressured, and every pause ends. */
module ReceiverPause {
  import opened Splitting
  import opened Framing
  import opened Chunking
  import opened SinkSteps
  import opened SinkRuns
  import opened SinkClaims
  import opened ReceiverSteps

  // ----- Watermark events of one step ------------------------------------

  lemma {:induction false} WatermarksAppend(a: seq<Event>, b: seq<Event>)
    ensures Watermarks(a + b) == Watermarks(a) + Watermarks(b)
  {
    if b == [] {
      assert a + b == a;
    } else {
      var n := |b| - 1;
      WatermarksAppend(a, b[..n]);
      assert (a + b)[..|a + b| - 1] == a + b[..n];
    }
  }

  /** From `s` to `t` the sink reports a watermark exactly if its backpressure flips. */
  ghost predicate Signals(s: Sink, t: Sink) {
    s.events <= t.events &&
    Watermarks(t.events[|s.events|..]) == if t.backpressured == s.backpressured then [] else [t.backpressured]
  }

  lemma SignalsEmit(s: Sink, event: Event)
    requires !event.HighWatermark? && !event.LowWatermark?
    ensures Signals(s, Emit(s, event))
  {
    assert Emit(s, event).events[|s.events|..] == [event];
    assert Watermarks([event]) == [];
  }

  lemma SignalsUpdate(s: Sink)
    ensures Signals(s, UpdateBackpressure(s))
  {
    var t := UpdateBackpressure(s);
    if t.backpressured != s.backpressured {
      var event := t.events[|s.events|];
      assert t.events[|s.events|..] == [event];
      assert Watermarks([event]) == [] + [t.backpressured];
    }
  }

  /** Quiet steps before a step do not change what it signals. */
  lemma SignalsAfterQuiet(s: Sink, t: Sink, u: Sink)
    requires Signals(s, t) && Signals(t, u) && t.backpressured == s.backpressured
    ensures Signals(s, u)
  {
    AddedTwice(s.events, t.events, u.events);
    WatermarksAppend(t.events[|s.events|..], u.events[|t.events|..]);
    EmptyLeft(Watermarks(u.events[|t.events|..]));
  }

  lemma AddedTwice<T>(a: seq<T>, b: seq<T>, c: seq<T>)
    requires a <= b <= c
    ensures a <= c && c[|a|..] == b[|a|..] + c[|b|..]
  {
  }

  lemma SignalsApplyPending(s: Sink)
    ensures Signals(s, ApplyPending(s)) && ApplyPending(s).backpressured == s.backpressured
  {
    SignalsEmit(s, Reconfigured);
  }

  lemma SignalsPersist(s: Sink, item: Item, line: Bytes)
    requires FileReady(s)
    ensures var t := Persist(s, item, line).0;
            Signals(s, t) && t.backpressured == s.backpressured
  {
    PersistFrame(s, item, line);
    SignalsEmit(s, FileRotated);
  }

  lemma SignalsHandle(s: Sink, item: Item, line: Bytes)
    requires FileReady(s)
    ensures Signals(s, Handle(s, item, line))
  {
    if !IsControl(item) {
      var (t, blob) := Persist(s, item, line);
      SignalsPersist(s, item, line);
      SignalsUpdate(Settled(t, item, blob));
      assert Signals(t, Release(t, item, blob));
      SignalsAfterQuiet(s, t, Release(t, item, blob));
    }
  }

  lemma SignalsDrain(s: Sink, line: Bytes)
    requires FileReady(s)
    ensures Signals(s, Drain(s, line))
  {
    if s.task.Running? && s.queue != [] {
      var t := s.(queue := s.queue[1..]);
      SignalsApplyPending(t);
      SignalsHandle(ApplyPending(t), s.queue[0], line);
      SignalsAfterQuiet(t, ApplyPending(t), Drain(s, line));
    }
  }

  lemma SignalsSubmit(s: Sink, record: Record, src: string)
    ensures Signals(s, Submit(s, record, src).0)
  {
    if s.queuedBytes + |record.payload| > s.cfg.queueMax {
      SignalsEmit(s, RecordDropped(src, |record.payload|));
    } else {
      SignalsUpdate(Enqueued(s, Item(record, src, false)));
    }
  }

  lemma SignalsStep(s: Sink, a: Action)
    requires FileReady(s)
    ensures Signals(s, Apply(s, a))
  {
    match a
    case DoStart => SignalsEmit(s, Started);
    case DoRequestStop =>
    case DoJoin => SignalsEmit(s, Stopped);
    case DoConfigure(_) =>
    case DoSubmit(record, src) => SignalsSubmit(s, record, src);
    case DoDrain(line) => SignalsDrain(s, line);
  }

  // ----- The transport follows the sink ----------------------------------

  /** Only watermark events matter to the transport. */
  function HeedMarks(net: Net, marks: seq<bool>): Net {
    if marks == [] then net else SetPaused(HeedMarks(net, marks[..|marks| - 1]), marks[|marks| - 1])
  }

  lemma {:induction false} HeedIsHeedMarks(net: Net, events: seq<Event>)
    ensures Heed(net, events) == HeedMarks(net, Watermarks(events))
  {
    if events != [] {
      var earlier := events[..|events| - 1];
      HeedIsHeedMarks(net, earlier);
      assert (Watermarks(earlier) + [true])[..|Watermarks(earlier)|] == Watermarks(earlier);
      assert (Watermarks(earlier) + [false])[..|Watermarks(earlier)|] == Watermarks(earlier);
    }
  }

  /** After any sink step the transport is set to the sink's backpressure. */
  lemma FollowSets(y: System, sink: Sink)
    requires y.net.paused == y.sink.backpressured && Signals(y.sink, sink)
    ensures Follow(y, sink) == System(sink, SetPaused(y.net, sink.backpressured))
  {
    var more := sink.events[|y.sink.events|..];
    HeedIsHeedMarks(y.net, more);
    if sink.backpressured != y.sink.backpressured {
      assert [sink.backpressured][..0] == [];
      assert HeedMarks(y.net, [sink.backpressured]) == SetPaused(HeedMarks(y.net, []), sink.backpressured);
    }
  }

  // ----- The invariant ---------------------------------------------------

  /** What the transport needs of the sink. */
  ghost predicate Calm(s: Sink) {
    Balanced(s) && MarksAgree(s) && FileInForce(s)
  }

  lemma CalmSubmit(s: Sink, record: Record, src: string)
    requires Calm(s)
    ensures Calm(Submit(s, record, src).0)
  {
    BalancedSubmit(s, record, src);
    MarksSubmit(s, record, src);
    FileSubmit(s, record, src);
  }

  lemma FileSubmit(s: Sink, record: Record, src: string)
    requires FileInForce(s)
    ensures FileInForce(Submit(s, record, src).0)
  {
  }

  lemma CalmDrain(s: Sink, line: Bytes)
    requires Calm(s)
    ensures Calm(Drain(s, line))
  {
    BalancedDrain(s, line);
    MarksDrain(s, line);
    FileDrain(s, line);
  }

  lemma CalmStep(s: Sink, a: Action)
    requires Calm(s) && Legal(a)
    ensures Calm(Apply(s, a))
  {
    BalancedStep(s, a);
    MarksStep(s, a);
    FileStep(s, a);
  }

  /** Nobody waits at an open gate. */
  ghost predicate GateHolds(net: Net) {
    !net.paused ==> forall src | src in net.peers :: !net.peers[src].status.Waiting?
  }

  ghost predicate InStep(y: System) {
    Calm(y.sink) && y.net.paused == y.sink.backpressured && GateHolds(y.net)
  }

  ghost predicate Allowed(step: Step) {
    step.SinkStep? ==> Legal(step.action) && !step.action.DoSubmit?
  }

  lemma InStepSink(y: System, sink: Sink)
    requires InStep(y) && Calm(sink) && Signals(y.sink, sink)
    ensures InStep(Follow(y, sink))
  {
    FollowSets(y, sink);
  }

  lemma InStepFollow(y: System, a: Action)
    requires InStep(y) && Legal(a)
    ensures InStep(Follow(y, Apply(y.sink, a)))
  {
    CalmStep(y.sink, a);
    SignalsStep(y.sink, a);
    InStepSink(y, Apply(y.sink, a));
  }

  lemma InStepDeliverOne(y: System, src: string, record: Record)
    requires InStep(y)
    ensures InStep(Deliver(y, src, record))
  {
    CalmSubmit(y.sink, record, src);
    SignalsSubmit(y.sink, record, src);
    InStepSink(y, Submit(y.sink, record, src).0);
  }

  lemma {:induction false} InStepDeliver(y: System, src: string, records: seq<Record>)
    requires InStep(y)
    ensures InStep(DeliverAll(y, src, records))
  {
    if records != [] {
      var n := |records| - 1;
      InStepDeliver(y, src, records[..n]);
      InStepDeliverOne(DeliverAll(y, src, records[..n]), src, records[n]);
    }
  }

  lemma InStepPeer(y: System, src: string, peer: Peer)
    requires InStep(y) && (peer.status.Waiting? ==> y.net.paused)
    ensures InStep(WithPeer(y, src, peer))
  {
  }

  lemma InStepFinish(y: System, src: string)
    requires InStep(y) && src in y.net.peers
    ensures InStep(Finish(y, src))
  {
    var peer := y.net.peers[src];
    var (framer, record) := Flushed(y.net.mode, y.net.max, peer.framer);
    var left := peer.(framer := framer, status := Closed, flushed := true);
    InStepPeer(y, src, left);
    InStepDeliver(WithPeer(y, src, left), src, Optional(record));
  }

  lemma InStepGate(y: System, src: string)
    requires InStep(y) && src in y.net.peers
    ensures InStep(Gate(y, src))
  {
    if !y.net.running {
      InStepFinish(y, src);
    } else {
      InStepPeer(y, src, y.net.peers[src].(status := if y.net.paused then Waiting else Reading));
    }
  }

  lemma InStepRead(y: System, src: string, chunk: Bytes)
    requires InStep(y)
    ensures InStep(DoRead(y, src, chunk))
  {
    if src in y.net.peers && y.net.peers[src].status.Reading? && chunk != [] {
      var peer := y.net.peers[src];
      var (framer, records) := Fed(y.net.mode, y.net.max, peer.framer, chunk);
      var fed := WithPeer(y, src, peer.(framer := framer, chunks := peer.chunks + [chunk]));
      InStepPeer(y, src, peer.(framer := framer, chunks := peer.chunks + [chunk]));
      InStepDeliver(fed, src, records);
      DeliverKeepsPeers(fed, src, records);
      InStepGate(DeliverAll(fed, src, records), src);
    }
  }

  lemma InStepConnect(y: System, src: string)
    requires InStep(y)
    ensures InStep(DoConnect(y, src))
  {
    if src in y.net.peers ==> y.net.peers[src].status.Closed? {
      InStepPeer(y, src, Arriving(y.net, src));
      InStepGate(WithPeer(y, src, Arriving(y.net, src)), src);
    }
  }

  /** Every step keeps transport and sink in step. */
  lemma InStepNext(y: System, step: Step)
    requires InStep(y) && Allowed(step)
    ensures InStep(Next(y, step))
  {
    match step
    case Connect(src) => InStepConnect(y, src);
    case Read(src, chunk) => InStepRead(y, src, chunk);
    case Eof(src) => if src in y.net.peers { InStepFinish(y, src); }
    case Cancel(src) => if src in y.net.peers { InStepPeer(y, src, y.net.peers[src].(status := Closed)); }
    case StopTransport =>
    case SinkStep(action) => InStepFollow(y, action);
  }

  function RunAll(y: System, steps: seq<Step>): System
    requires FileReady(y.sink)
    decreases |steps|
  {
    if steps == [] then y
    else
      var z := RunAll(y, steps[..|steps| - 1]);
      if FileReady(z.sink) then Next(z, steps[|steps| - 1]) else z
  }

  /** The engine has started the sink, and then the transport. */
  function Fresh(cfg: Config, disk: Disk, mode: Mode, max: nat): System {
    System(Start(Initial(cfg, disk)), Net(mode, max, true, false, map[]))
  }

  lemma FreshInStep(cfg: Config, disk: Disk, mode: Mode, max: nat)
    requires cfg.Valid()
    ensures InStep(Fresh(cfg, disk, mode, max))
  {
    CalmStep(Initial(cfg, disk), DoStart);
  }

  lemma {:induction false} InStepRun(y: System, steps: seq<Step>)
    requires InStep(y) && forall step | step in steps :: Allowed(step)
    ensures InStep(RunAll(y, steps))
  {
    if steps != [] {
      var n := |steps| - 1;
      InStepRun(y, steps[..n]);
      InStepNext(RunAll(y, steps[..n]), steps[n]);
    }
  }

  /**
   In every reachable state, whatever the configurations: reads are paused exactly while the
   sink is backpressured, a peer waits only then, backpressure means queued bytes, the queue's
   account is right, and high and low events alternate, starting with high.
   */
  lemma {:induction false} PausedIffBackpressured(cfg: Config, disk: Disk, mode: Mode, max: nat, steps: seq<Step>)
    requires cfg.Valid() && forall step | step in steps :: Allowed(step)
    ensures var y := RunAll(Fresh(cfg, disk, mode, max), steps);
            y.net.paused == y.sink.backpressured &&
            (forall src | src in y.net.peers && y.net.peers[src].status.Waiting? :: y.net.paused) &&
            (y.net.paused ==> 0 < y.sink.queuedBytes) &&
            y.sink.queuedBytes == QueuedPayload(y.sink.queue) &&
            Alternating(Watermarks(y.sink.events), y.net.paused)
  {
    FreshInStep(cfg, disk, mode, max);
    InStepRun(Fresh(cfg, disk, mode, max), steps);
  }

  // ----- Every pause ends ------------------------------------------------

  function Drains(lines: seq<Bytes>): seq<Step> {
    seq(|lines|, i requires 0 <= i < |lines| => SinkStep(DoDrain(lines[i])))
  }

  lemma DrainStep(y: System, line: Bytes)
    requires InStep(y) && y.sink.task.Running? && y.sink.queue != [] && !y.sink.queue[0].stop
    ensures var z := Next(y, SinkStep(DoDrain(line)));
            InStep(z) && z.sink.task.Running? && z.sink.queue == y.sink.queue[1..]
  {
    DrainTakesOne(y.sink, line);
    CalmDrain(y.sink, line);
    SignalsDrain(y.sink, line);
    InStepSink(y, Drain(y.sink, line));
  }

  lemma {:induction false} DrainsRun(y: System, lines: seq<Bytes>)
    requires InStep(y) && y.sink.task.Running? && NoStop(y.sink.queue) && |lines| <= |y.sink.queue|
    ensures var z := RunAll(y, Drains(lines));
            InStep(z) && z.sink.task.Running? && z.sink.queue == y.sink.queue[|lines|..]
  {
    if lines == [] {
      assert Drains(lines) == [];
    } else {
      var n := |lines| - 1;
      var z := RunAll(y, Drains(lines[..n]));
      DrainsRun(y, lines[..n]);
      DrainsLast(y, lines);
      DrainStep(z, lines[n]);
      assert y.sink.queue[n..][1..] == y.sink.queue[n + 1..];
    }
  }

  lemma DrainsLast(y: System, lines: seq<Bytes>)
    requires FileReady(y.sink) && lines != []
    ensures var n := |lines| - 1;
            var z := RunAll(y, Drains(lines[..n]));
            FileReady(z.sink) ==> RunAll(y, Drains(lines)) == Next(z, SinkStep(DoDrain(lines[n])))
  {
    DrainsSplit(lines);
    RunAllLast(y, Drains(lines));
  }

  lemma DrainsSplit(lines: seq<Bytes>)
    requires lines != []
    ensures var n := |lines| - 1;
            |Drains(lines)| == |lines| && Drains(lines)[..n] == Drains(lines[..n]) && Drains(lines)[n] == SinkStep(DoDrain(lines[n]))
  {
  }

  lemma RunAllLast(y: System, steps: seq<Step>)
    requires FileReady(y.sink) && steps != []
    ensures var z := RunAll(y, steps[..|steps| - 1]);
            FileReady(z.sink) ==> RunAll(y, steps) == Next(z, steps[|steps| - 1])
  {
  }

  /** A running sink that drains its queue resumes the reads of every peer. */
  lemma PauseEnds(y: System, lines: seq<Bytes>)
    requires InStep(y) && y.sink.task.Running? && NoStop(y.sink.queue) && |lines| == |y.sink.queue|
    ensures var z := RunAll(y, Drains(lines));
            z.sink.queue == [] && !z.sink.backpressured && !z.net.paused &&
            forall src | src in z.net.peers :: !z.net.peers[src].status.Waiting?
  {
    DrainsRun(y, lines);
  }
}
