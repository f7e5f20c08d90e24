/**
 The receiver pipeline as a step system: TCP peers with a read gate
 (transport/tcp_server_receiver.py), the engine's glue (engine/receiver.py) and the sink.
 Every step is the code that one coroutine runs between two awaits.
 */
module ReceiverSteps {
  import opened Splitting
  import opened Framing
  import opened Chunking
  import opened SinkSteps
  import opened SinkRuns

  /** Past the gate and awaiting a read, waiting at the gate, or gone. */
  datatype Status = Reading | Waiting | Closed

  /** What a connection has read, and whether its framer was flushed at the end. */
  datatype Stream = Stream(chunks: seq<Bytes>, flushed: bool)

  /** A peer's coroutine, the history of what it has read, and earlier connections of its address. */
  datatype Peer = Peer(status: Status, framer: FramerState, chunks: seq<Bytes>, flushed: bool, earlier: seq<Stream>)

  datatype Net = Net(mode: Mode, max: nat, running: bool, paused: bool, peers: map<string, Peer>)

  datatype System = System(sink: Sink, net: Net)

  datatype Step =
    | Connect(src: string)
    | Read(src: string, chunk: Bytes)
    | Eof(src: string)
    | Cancel(src: string)
    | StopTransport
    | SinkStep(action: Action)

  // ----- Pause and resume ------------------------------------------------

  function Woken(peers: map<string, Peer>): map<string, Peer> {
    map src | src in peers :: if peers[src].status == Waiting then peers[src].(status := Reading) else peers[src]
  }

  /** Resuming wakes every waiting peer: each will read, even if reads are paused again first. */
  function SetPaused(net: Net, paused: bool): Net {
    if paused then net.(paused := true)
    else if net.paused then net.(paused := false, peers := Woken(net.peers))
    else net
  }

  /** The engine passes the sink's watermark events on to the transport. */
  function Heed(net: Net, events: seq<Event>): Net {
    if events == [] then net
    else
      var earlier := Heed(net, events[..|events| - 1]);
      match events[|events| - 1]
      case HighWatermark(_) => SetPaused(earlier, true)
      case LowWatermark(_) => SetPaused(earlier, false)
      case _ => earlier
  }

  /** Carry a sink step's new events over to the transport. */
  function Follow(y: System, sink: Sink): System {
    System(sink, if |y.sink.events| <= |sink.events| then Heed(y.net, sink.events[|y.sink.events|..]) else y.net)
  }

  // ----- Deliveries ------------------------------------------------------

  function Deliver(y: System, src: string, record: Record): System {
    Follow(y, Submit(y.sink, record, src).0)
  }

  function DeliverAll(y: System, src: string, records: seq<Record>): System {
    if records == [] then y
    else Deliver(DeliverAll(y, src, records[..|records| - 1]), src, records[|records| - 1])
  }

  function WithPeer(y: System, src: string, peer: Peer): System {
    y.(net := y.net.(peers := y.net.peers[src := peer]))
  }

  /** A peer that has left its read loop and flushed its framer. */
  function Left(mode: Mode, max: nat, peer: Peer): Peer {
    peer.(framer := Flushed(mode, max, peer.framer).0, status := Closed, flushed := true)
  }

  /** Leave the read loop: flush the framer, deliver its last record, close. */
  function Finish(y: System, src: string): System
    requires src in y.net.peers
  {
    var peer := y.net.peers[src];
    DeliverAll(WithPeer(y, src, Left(y.net.mode, y.net.max, peer)), src,
               Optional(Flushed(y.net.mode, y.net.max, peer.framer).1))
  }

  /** The top of the read loop: leave it, wait at the gate, or go on to the next read. */
  function Gate(y: System, src: string): System
    requires src in y.net.peers
  {
    if !y.net.running then Finish(y, src)
    else WithPeer(y, src, y.net.peers[src].(status := if y.net.paused then Waiting else Reading))
  }

  lemma {:induction false} HeedKeepsPeers(net: Net, events: seq<Event>)
    ensures Heed(net, events).peers.Keys == net.peers.Keys
    ensures Heed(net, events) == net.(paused := Heed(net, events).paused, peers := Heed(net, events).peers)
  {
    if events != [] {
      HeedKeepsPeers(net, events[..|events| - 1]);
    }
  }

  lemma HeedOne(net: Net, events: seq<Event>, i: nat)
    requires i < |events|
    ensures Heed(net, events[..i + 1]) == Heed(Heed(net, events[..i]), [events[i]])
  {
    assert events[..i + 1][..i] == events[..i];
    assert [events[i]][..0] == [];
    assert Heed(Heed(net, events[..i]), []) == Heed(net, events[..i]);
  }

  lemma {:induction false} DeliverKeepsPeers(y: System, src: string, records: seq<Record>)
    ensures DeliverAll(y, src, records).net.peers.Keys == y.net.peers.Keys
  {
    if records != [] {
      var n := |records| - 1;
      var z := DeliverAll(y, src, records[..n]);
      DeliverKeepsPeers(y, src, records[..n]);
      var sink := Submit(z.sink, records[n], src).0;
      if |z.sink.events| <= |sink.events| {
        HeedKeepsPeers(z.net, sink.events[|z.sink.events|..]);
      }
    }
  }

  // ----- Steps -----------------------------------------------------------

  /** A new connection, which may be of an address whose connection is gone. */
  function Arriving(net: Net, src: string): Peer {
    if src !in net.peers then Peer(Reading, Empty, [], false, [])
    else
      var last := net.peers[src];
      Peer(Reading, Empty, [], false, last.earlier + [Stream(last.chunks, last.flushed)])
  }

  function DoConnect(y: System, src: string): System {
    if src in y.net.peers && !y.net.peers[src].status.Closed? then y
    else Gate(WithPeer(y, src, Arriving(y.net, src)), src)
  }

  function DoRead(y: System, src: string, chunk: Bytes): System {
    if src !in y.net.peers || !y.net.peers[src].status.Reading? || chunk == [] then y
    else
      var peer := y.net.peers[src];
      var (framer, records) := Fed(y.net.mode, y.net.max, peer.framer, chunk);
      var fed := WithPeer(y, src, peer.(framer := framer, chunks := peer.chunks + [chunk]));
      DeliverKeepsPeers(fed, src, records);
      Gate(DeliverAll(fed, src, records), src)
  }

  /** End of stream or a connection error. */
  function DoEof(y: System, src: string): System {
    if src !in y.net.peers || !y.net.peers[src].status.Reading? then y else Finish(y, src)
  }

  /** Cancellation: the peer goes without a flush. */
  function DoCancel(y: System, src: string): System {
    if src !in y.net.peers || y.net.peers[src].status.Closed? then y
    else WithPeer(y, src, y.net.peers[src].(status := Closed))
  }

  function Next(y: System, step: Step): System
    requires FileReady(y.sink)
  {
    match step
    case Connect(src) => DoConnect(y, src)
    case Read(src, chunk) => DoRead(y, src, chunk)
    case Eof(src) => DoEof(y, src)
    case Cancel(src) => DoCancel(y, src)
    case StopTransport => y.(net := y.net.(running := false))
    case SinkStep(action) => Follow(y, Apply(y.sink, action))
  }
}
