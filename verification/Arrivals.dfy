/**
 What arrives of every connection, said of the steps that peers and transport took: which chunks
 were read, and how the connection ended.
 */
module Arrivals {
  import opened Splitting
  import opened Framing
  import opened Chunking
  import opened CrLfChunking
  import opened CutPoints
  import opened RawChunks
  import opened SinkSteps
  import opened SinkRuns
  import opened ReceiverSteps
  import opened ReceiverPause
  import opened ReceiverCapacity
  import opened EndToEnd

  /** A connection still goes on, has left its read loop, or was cancelled. */
  datatype Ending = Open | Finished | Cancelled

  /** The chunks read from one connection, and how it ended. */
  datatype Talk = Talk(chunks: seq<Bytes>, ending: Ending)

  predicate IsOpen(talks: seq<Talk>) {
    talks != [] && talks[|talks| - 1].ending.Open?
  }

  function Ended(talks: seq<Talk>, ending: Ending): seq<Talk>
    requires talks != []
  {
    talks[|talks| - 1 := talks[|talks| - 1].(ending := ending)]
  }

  function MoreRead(talks: seq<Talk>, chunk: Bytes): seq<Talk>
    requires talks != []
  {
    var talk := talks[|talks| - 1];
    talks[|talks| - 1 := talk.(chunks := talk.chunks + [chunk])]
  }

  /** The top of the read loop finds whether the transport has been stopped. */
  function Gated(talks: seq<Talk>, stopped: bool): seq<Talk>
    requires talks != []
  {
    if stopped then Ended(talks, Finished) else talks
  }

  /** The talks of an address after one more step; a peer at the gate reads nothing. */
  function Extended(talks: seq<Talk>, step: Step, src: string, stopped: bool, waits: bool): seq<Talk> {
    match step
    case Connect(s) =>
      if s == src && !IsOpen(talks) then Gated(talks + [Talk([], Open)], stopped) else talks
    case Read(s, chunk) =>
      if s == src && IsOpen(talks) && !waits && chunk != [] then Gated(MoreRead(talks, chunk), stopped) else talks
    case Eof(s) =>
      if s == src && IsOpen(talks) && !waits then Ended(talks, Finished) else talks
    case Cancel(s) =>
      if s == src && IsOpen(talks) then Ended(talks, Cancelled) else talks
    case _ => talks
  }

  predicate Waits(net: Net, src: string) {
    src in net.peers && net.peers[src].status.Waiting?
  }

  /** The connections of an address in a run, from the steps. */
  function Talks(y0: System, steps: seq<Step>, src: string): seq<Talk>
    requires FileReady(y0.sink)
  {
    if steps == [] then []
    else
      var n := |steps| - 1;
      Extended(Talks(y0, steps[..n], src), steps[n], src, StopTransport in steps[..n], Waits(RunAll(y0, steps[..n]).net, src))
  }

  // ----- The peers are where the steps say -------------------------------

  predicate Alike(stream: Stream, talk: Talk) {
    stream.chunks == talk.chunks && (stream.flushed <==> talk.ending.Finished?)
  }

  ghost predicate Told(peer: Peer, talks: seq<Talk>) {
    |talks| == |Connections(peer)| &&
    (forall i | 0 <= i < |talks| :: Alike(Connections(peer)[i], talks[i])) &&
    (peer.status.Closed? <==> !IsOpen(talks))
  }

  ghost predicate Tells(net: Net, talks: seq<Talk>, src: string) {
    if src in net.peers then Told(net.peers[src], talks) else talks == []
  }

  lemma TellsSame(a: Net, b: Net, talks: seq<Talk>, src: string)
    requires Tells(a, talks, src) && SameStreams(a, b)
    ensures Tells(b, talks, src)
  {
    if src in a.peers {
      assert Connections(b.peers[src]) == Connections(a.peers[src]);
    }
  }

  lemma DeliverTells(y: System, s: string, records: seq<Record>, talks: seq<Talk>, src: string)
    requires Tells(y.net, talks, src)
    ensures Tells(DeliverAll(y, s, records).net, talks, src)
  {
    DeliverKeepsOpen(y, s, records);
    TellsSame(y.net, DeliverAll(y, s, records).net, talks, src);
  }

  lemma ToldLeft(mode: Mode, max: nat, peer: Peer, talks: seq<Talk>)
    requires Told(peer, talks) && IsOpen(talks)
    ensures Told(Left(mode, max, peer), Ended(talks, Finished))
  {
  }

  lemma ToldCancelled(peer: Peer, talks: seq<Talk>)
    requires Told(peer, talks) && IsOpen(talks)
    ensures Told(peer.(status := Closed), Ended(talks, Cancelled))
  {
  }

  lemma ToldRead(peer: Peer, talks: seq<Talk>, framer: FramerState, chunk: Bytes)
    requires Told(peer, talks) && IsOpen(talks)
    ensures Told(peer.(framer := framer, chunks := peer.chunks + [chunk]), MoreRead(talks, chunk))
  {
  }

  lemma ToldArriving(net: Net, talks: seq<Talk>, src: string)
    requires Tells(net, talks, src) && !IsOpen(talks)
    ensures Told(Arriving(net, src), talks + [Talk([], Open)])
  {
    if src in net.peers {
      assert Arriving(net, src).earlier == Connections(net.peers[src]);
    }
  }

  /** The loop is left with a flush; other addresses are not concerned. */
  lemma FinishTells(y: System, s: string, talks: seq<Talk>, src: string)
    requires s in y.net.peers && Tells(y.net, talks, src) && (s == src ==> IsOpen(talks))
    ensures Tells(Finish(y, s).net, if s == src then Ended(talks, Finished) else talks, src)
  {
    var peer := y.net.peers[s];
    var left := WithPeer(y, s, Left(y.net.mode, y.net.max, peer));
    if s == src {
      ToldLeft(y.net.mode, y.net.max, peer, talks);
    }
    DeliverTells(left, s, Optional(Flushed(y.net.mode, y.net.max, peer.framer).1),
                 if s == src then Ended(talks, Finished) else talks, src);
  }

  lemma GateTells(y: System, s: string, talks: seq<Talk>, src: string)
    requires s in y.net.peers && Tells(y.net, talks, src) && (s == src ==> IsOpen(talks))
    ensures Tells(Gate(y, s).net, if s == src then Gated(talks, !y.net.running) else talks, src)
  {
    if !y.net.running {
      FinishTells(y, s, talks, src);
    } else if s == src {
      assert Connections(Gate(y, s).net.peers[s]) == Connections(y.net.peers[s]);
    }
  }

  lemma ConnectTells(y: System, s: string, talks: seq<Talk>, src: string)
    requires Tells(y.net, talks, src)
    ensures Tells(DoConnect(y, s).net, Extended(talks, Connect(s), src, !y.net.running, Waits(y.net, src)), src)
  {
    if s in y.net.peers ==> y.net.peers[s].status.Closed? {
      if s == src {
        ToldArriving(y.net, talks, src);
      }
      GateTells(WithPeer(y, s, Arriving(y.net, s)), s, if s == src then talks + [Talk([], Open)] else talks, src);
    }
  }

  lemma ReadTells(y: System, s: string, chunk: Bytes, talks: seq<Talk>, src: string)
    requires Tells(y.net, talks, src)
    ensures Tells(DoRead(y, s, chunk).net, Extended(talks, Read(s, chunk), src, !y.net.running, Waits(y.net, src)), src)
  {
    if s in y.net.peers && y.net.peers[s].status.Reading? && chunk != [] {
      var peer := y.net.peers[s];
      var (framer, records) := Fed(y.net.mode, y.net.max, peer.framer, chunk);
      var fed := WithPeer(y, s, peer.(framer := framer, chunks := peer.chunks + [chunk]));
      var more := if s == src then MoreRead(talks, chunk) else talks;
      if s == src {
        ToldRead(peer, talks, framer, chunk);
      }
      DeliverTells(fed, s, records, more, src);
      DeliverKeepsPeers(fed, s, records);
      DeliverRuns(fed, s, records);
      GateTells(DeliverAll(fed, s, records), s, more, src);
    }
  }

  lemma {:induction false} HeedRuns(net: Net, events: seq<Event>)
    ensures Heed(net, events).running == net.running
  {
    if events != [] {
      HeedRuns(net, events[..|events| - 1]);
    }
  }

  lemma {:induction false} DeliverRuns(y: System, s: string, records: seq<Record>)
    ensures DeliverAll(y, s, records).net.running == y.net.running
  {
    if records != [] {
      var n := |records| - 1;
      var z := DeliverAll(y, s, records[..n]);
      DeliverRuns(y, s, records[..n]);
      var sink := Submit(z.sink, records[n], s).0;
      if |z.sink.events| <= |sink.events| {
        HeedRuns(z.net, sink.events[|z.sink.events|..]);
      }
    }
  }

  lemma NextTells(y: System, step: Step, talks: seq<Talk>, src: string)
    requires FileReady(y.sink) && Tells(y.net, talks, src)
    ensures Tells(Next(y, step).net, Extended(talks, step, src, !y.net.running, Waits(y.net, src)), src)
  {
    match step
    case Connect(s) => ConnectTells(y, s, talks, src);
    case Read(s, chunk) => ReadTells(y, s, chunk, talks, src);
    case Eof(s) =>
      if s in y.net.peers && y.net.peers[s].status.Reading? {
        FinishTells(y, s, talks, src);
      }
    case Cancel(s) =>
      if s == src && src in y.net.peers && IsOpen(talks) {
        ToldCancelled(y.net.peers[src], talks);
      }
    case StopTransport =>
    case SinkStep(action) =>
      if |y.sink.events| <= |Apply(y.sink, action).events| {
        HeedStreams(y.net, Apply(y.sink, action).events[|y.sink.events|..]);
      }
      TellsSame(y.net, Next(y, step).net, talks, src);
  }

  /** Only `StopTransport` stops the transport. */
  lemma NextRuns(y: System, step: Step)
    requires FileReady(y.sink)
    ensures Next(y, step).net.running == (y.net.running && !step.StopTransport?)
  {
    match step
    case Connect(s) => if s in y.net.peers ==> y.net.peers[s].status.Closed? { GateRunning(WithPeer(y, s, Arriving(y.net, s)), s); }
    case Read(s, chunk) => ReadRunning(y, s, chunk);
    case Eof(s) => if s in y.net.peers { FinishRunning(y, s); }
    case Cancel(s) =>
    case StopTransport =>
    case SinkStep(action) =>
      if |y.sink.events| <= |Apply(y.sink, action).events| {
        HeedRuns(y.net, Apply(y.sink, action).events[|y.sink.events|..]);
      }
  }

  lemma FinishRunning(y: System, s: string)
    requires s in y.net.peers
    ensures Finish(y, s).net.running == y.net.running
  {
    var peer := y.net.peers[s];
    DeliverRuns(WithPeer(y, s, Left(y.net.mode, y.net.max, peer)), s, Optional(Flushed(y.net.mode, y.net.max, peer.framer).1));
  }

  lemma GateRunning(y: System, s: string)
    requires s in y.net.peers
    ensures Gate(y, s).net.running == y.net.running
  {
    FinishRunning(y, s);
  }

  lemma ReadRunning(y: System, s: string, chunk: Bytes)
    ensures DoRead(y, s, chunk).net.running == y.net.running
  {
    if s in y.net.peers && y.net.peers[s].status.Reading? && chunk != [] {
      var peer := y.net.peers[s];
      var (framer, records) := Fed(y.net.mode, y.net.max, peer.framer, chunk);
      var fed := WithPeer(y, s, peer.(framer := framer, chunks := peer.chunks + [chunk]));
      DeliverKeepsPeers(fed, s, records);
      DeliverRuns(fed, s, records);
      GateRunning(DeliverAll(fed, s, records), s);
    }
  }

  lemma {:induction false} RunTells(y0: System, steps: seq<Step>, src: string)
    requires FileReady(y0.sink) && y0.net.running && y0.net.peers == map[]
    requires forall step | step in steps :: Allowed(step)
    ensures var y := RunAll(y0, steps);
            y.net.running == (StopTransport !in steps) && Tells(y.net, Talks(y0, steps, src), src)
    decreases |steps|
  {
    if steps != [] {
      var n := |steps| - 1;
      var y := RunAll(y0, steps[..n]);
      RunTells(y0, steps[..n], src);
      LastAfter(steps);
      var actions := PipelineRuns(y0, steps[..n]);
      NextRuns(y, steps[n]);
      NextTells(y, steps[n], Talks(y0, steps[..n], src), src);
    }
  }

  // ----- What is reported of a talk --------------------------------------

  /** All its records if the read loop was left, else those so far. */
  function TalkRecords(mode: Mode, max: nat, talk: Talk): seq<Record> {
    if talk.ending.Finished? then FeedAndFlush(mode, max, talk.chunks) else FeedAll(mode, max, talk.chunks).1
  }

  function TalksRecords(mode: Mode, max: nat, talks: seq<Talk>): seq<Record> {
    if talks == [] then []
    else
      var n := |talks| - 1;
      TalksRecords(mode, max, talks[..n]) + TalkRecords(mode, max, talks[n])
  }

  lemma {:induction false} ReportedTalks(mode: Mode, max: nat, streams: seq<Stream>, talks: seq<Talk>)
    requires |streams| == |talks| && forall i | 0 <= i < |talks| :: Alike(streams[i], talks[i])
    ensures ReportedAll(mode, max, streams) == TalksRecords(mode, max, talks)
  {
    if talks != [] {
      var n := |talks| - 1;
      ReportedTalks(mode, max, streams[..n], talks[..n]);
      ReportedTalk(mode, max, streams[n], talks[n]);
    }
  }

  lemma ReportedTalk(mode: Mode, max: nat, stream: Stream, talk: Talk)
    requires Alike(stream, talk)
    ensures ReportedOf(mode, max, stream) == TalkRecords(mode, max, talk)
  {
  }

  /**
   With enough room above the high watermark, what is written and queued of an address is, talk by
   talk, what a framer of its own makes of the chunks read, the flush included exactly if the read
   loop was left: at the end of the stream, or at the gate of a stopped transport.
   */
  lemma {:induction false} TalksArrive(lim: Limits, disk: Disk, steps: seq<Step>, src: string)
    requires lim.Valid() && lim.Top() <= lim.cfg.queueMax && src != ""
    requires AllFit(lim, Fresh(lim.cfg, disk, lim.mode, lim.max), steps) && AlwaysWrites(lim, steps)
    ensures var y0 := Fresh(lim.cfg, disk, lim.mode, lim.max);
            Held(RunAll(y0, steps).sink, src) == TalksRecords(lim.mode, lim.max, Talks(y0, steps, src))
  {
    var y0 := Fresh(lim.cfg, disk, lim.mode, lim.max);
    var y, talks := RunAll(y0, steps), Talks(y0, steps, src);
    AllFitKeeps(lim, y0, steps);
    RunTells(y0, steps, src);
    RoomyLimits(lim, disk, steps);
    NothingLost(lim, disk, steps, src);
    if src in y.net.peers {
      ReportedTalks(lim.mode, lim.max, Connections(y.net.peers[src]), talks);
    }
  }

  // ----- Mode by mode ----------------------------------------------------

  /** The records of LF talks: of the whole byte stream if the loop was left, else the certain ones. */
  function LfTalks(max: nat, talks: seq<Talk>): seq<Record> {
    if talks == [] then []
    else
      var n := |talks| - 1;
      var s := Concat(talks[n].chunks);
      LfTalks(max, talks[..n]) + if talks[n].ending.Finished? then Records([LF], max, s) else Certain([LF], max, s)
  }

  lemma {:induction false} LfTalksRecords(max: nat, talks: seq<Talk>)
    ensures TalksRecords(Lf, max, talks) == LfTalks(max, talks)
  {
    if talks != [] {
      var n := |talks| - 1;
      LfTalksRecords(max, talks[..n]);
      LfChunkIndependence(max, talks[n].chunks);
      FeedAllTracks(Lf, max, talks[n].chunks);
      LfHeard(max, talks[n].chunks);
    }
  }

  /** For LF framing: of every address, exactly the records of its connections' byte streams. */
  lemma {:induction false} StreamsArrive(lim: Limits, disk: Disk, steps: seq<Step>, src: string)
    requires lim.Valid() && lim.Top() <= lim.cfg.queueMax && src != "" && lim.mode == Lf
    requires AllFit(lim, Fresh(lim.cfg, disk, Lf, lim.max), steps) && AlwaysWrites(lim, steps)
    ensures var y0 := Fresh(lim.cfg, disk, Lf, lim.max);
            Held(RunAll(y0, steps).sink, src) == LfTalks(lim.max, Talks(y0, steps, src))
  {
    TalksArrive(lim, disk, steps, src);
    LfTalksRecords(lim.max, Talks(Fresh(lim.cfg, disk, Lf, lim.max), steps, src));
  }

  /** No cut of the stream severs a separator, or only one where it does not show. */
  predicate CrLfSafe(max: nat, chunks: seq<Bytes>) {
    SafeCuts(max, chunks) || (EndsSevered(max, chunks) && LastClosedLength(Concat(chunks)) > max)
  }

  /** A CR LF talk gives the records of its whole stream exactly if the cuts are safe, or the certain ones if no cut severs. */
  ghost predicate CrLfTalk(max: nat, talk: Talk) {
    var records, s := TalkRecords(CrLf, max, talk), Concat(talk.chunks);
    if talk.ending.Finished? then records == Records(CRLF, max, s) <==> CrLfSafe(max, talk.chunks)
    else SafeCuts(max, talk.chunks) ==> records == Certain(CRLF, max, s)
  }

  lemma CrLfTalkIs(max: nat, talk: Talk)
    ensures CrLfTalk(max, talk)
  {
    if talk.ending.Finished? {
      CutPoints.CrLfChunkIndependence(max, talk.chunks);
    } else if SafeCuts(max, talk.chunks) {
      LostIffSevered(max, talk.chunks);
      NothingLostHeard(max, talk.chunks);
      FeedAllTracks(CrLf, max, talk.chunks);
    }
  }

  lemma {:induction false} NothingLostHeard(max: nat, chunks: seq<Bytes>)
    requires Lost(max, chunks) == 0
    ensures Heard(CrLf, max, chunks) == Concat(chunks)
  {
    var x := BesideAll(max, chunks);
  }

  /** For CR LF framing: talk by talk what the framer makes of it, which is the stream's records exactly if its cuts are safe. */
  lemma {:induction false} CrLfStreamsArrive(lim: Limits, disk: Disk, steps: seq<Step>, src: string)
    requires lim.Valid() && lim.Top() <= lim.cfg.queueMax && src != "" && lim.mode == CrLf
    requires AllFit(lim, Fresh(lim.cfg, disk, CrLf, lim.max), steps) && AlwaysWrites(lim, steps)
    ensures var y0 := Fresh(lim.cfg, disk, CrLf, lim.max);
            var talks := Talks(y0, steps, src);
            Held(RunAll(y0, steps).sink, src) == TalksRecords(CrLf, lim.max, talks) &&
            forall talk | talk in talks :: CrLfTalk(lim.max, talk)
  {
    TalksArrive(lim, disk, steps, src);
    forall talk ensures CrLfTalk(lim.max, talk) {
      CrLfTalkIs(lim.max, talk);
    }
  }

  /** All chunks of an address, from whatever connection. */
  function AllChunks(talks: seq<Talk>): seq<Bytes> {
    if talks == [] then [] else AllChunks(talks[..|talks| - 1]) + talks[|talks| - 1].chunks
  }

  lemma {:induction false} RawTalks(max: nat, talks: seq<Talk>)
    ensures TalksRecords(RawChunk, max, talks) == FeedAll(RawChunk, max, AllChunks(talks)).1
  {
    if talks != [] {
      var n := |talks| - 1;
      RawTalks(max, talks[..n]);
      RawAppend(max, AllChunks(talks[..n]), talks[n].chunks);
      EmptyRight(FeedAll(RawChunk, max, talks[n].chunks).1);
    }
  }

  /** For RAW_CHUNK: one record for every chunk that was read from the address, in order, however its connections ended. */
  lemma {:induction false} RawChunksArrive(lim: Limits, disk: Disk, steps: seq<Step>, src: string)
    requires lim.Valid() && lim.Top() <= lim.cfg.queueMax && src != "" && lim.mode == RawChunk
    requires AllFit(lim, Fresh(lim.cfg, disk, RawChunk, lim.max), steps) && AlwaysWrites(lim, steps)
    ensures var y0 := Fresh(lim.cfg, disk, RawChunk, lim.max);
            RawOf(lim.max, AllChunks(Talks(y0, steps, src)), Held(RunAll(y0, steps).sink, src))
  {
    var talks := Talks(Fresh(lim.cfg, disk, RawChunk, lim.max), steps, src);
    TalksArrive(lim, disk, steps, src);
    RawTalks(lim.max, talks);
    RawFeeds(lim.max, AllChunks(talks));
  }
}
