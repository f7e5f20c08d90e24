/**
 The TCP server receiver (transport/tcp_server_receiver.py) and the receiver engine
 (engine/receiver.py) as objects that carry out the steps of the pipeline in place.
 */
module Receiving {
  import opened Splitting
  import opened Framing
  import opened Chunking
  import opened S = SinkSteps
  import opened SinkRuns
  import opened SinkWriting
  import opened R = ReceiverSteps

  function WokenStatuses(statuses: map<string, Status>): map<string, Status> {
    map src | src in statuses :: if statuses[src] == Waiting then Reading else statuses[src]
  }

  /** Waking the peers changes their statuses in the same way as the peers themselves. */
  lemma WokenAlike(statuses: map<string, Status>, peers: map<string, Peer>)
    requires statuses.Keys == peers.Keys && forall src | src in peers :: statuses[src] == peers[src].status
    ensures WokenStatuses(statuses).Keys == statuses.Keys && Woken(peers).Keys == peers.Keys
    ensures forall src | src in peers ::
              WokenStatuses(statuses)[src] == Woken(peers)[src].status && Woken(peers)[src].framer == peers[src].framer
  {
  }

  class TcpServerReceiver {
    const mode: Mode
    const max: nat
    var running: bool
    var paused: bool
    var statuses: map<string, Status>
    var framers: map<string, Framer>
    /** The peers' abstract state, and what each has read. */
    ghost var peers: map<string, Peer>

    ghost function State(): Net
      reads this
    {
      Net(mode, max, running, paused, peers)
    }

    /** The peer's coroutine is where its abstract state says. */
    ghost predicate Mirrors(src: string)
      requires src in peers && src in statuses && src in framers
      reads this, framers[src]
    {
      statuses[src] == peers[src].status && framers[src].State() == peers[src].framer &&
      framers[src].mode == mode && framers[src].max == max
    }

    /** Every peer has a framer of its own. */
    ghost predicate Apart()
      reads this`framers
    {
      forall a, b | a in framers && b in framers && a != b :: framers[a] != framers[b]
    }

    ghost predicate Valid()
      reads this, framers.Values
    {
      max > 0 && statuses.Keys == peers.Keys && framers.Keys == peers.Keys &&
      (forall src | src in peers :: Mirrors(src)) && Apart()
    }

    constructor (mode: Mode, max: nat)
      requires max > 0
      ensures Valid() && State() == Net(mode, max, true, false, map[]) && framers == map[]
    {
      this.mode, this.max := mode, max;
      running, paused := true, false;
      statuses, framers, peers := map[], map[], map[];
    }

    /** Resuming sets the event that every waiting peer awaits. */
    method SetPaused(paused: bool)
      requires Valid()
      modifies this`paused, this`statuses, this`peers
      ensures Valid() && State() == R.SetPaused(old(State()), paused)
    {
      if paused {
        this.paused := true;
      } else if this.paused {
        this.paused := false;
        WokenAlike(statuses, peers);
        statuses := WokenStatuses(statuses);
        peers := Woken(peers);
      }
    }

    method StopRunning()
      requires Valid()
      modifies this`running
      ensures Valid() && State() == old(State()).(running := false)
    {
      running := false;
    }

    method AddPeer(src: string)
      requires Valid() && (src in statuses ==> statuses[src].Closed?)
      modifies this`statuses, this`framers, this`peers
      ensures Valid() && src in framers && fresh(framers[src])
      ensures State() == old(State()).(peers := old(peers)[src := Arriving(old(State()), src)])
    {
      ghost var peer := Arriving(State(), src);
      var framer := new Framer(mode, max);
      framers := framers[src := framer];
      statuses := statuses[src := Reading];
      peers := peers[src := peer];
    }

    method SetStatus(src: string, status: Status)
      requires Valid() && src in statuses
      modifies this`statuses, this`peers
      ensures Valid() && State() == old(State()).(peers := old(peers)[src := old(peers)[src].(status := status)])
    {
      statuses := statuses[src := status];
      peers := peers[src := peers[src].(status := status)];
    }

    method FeedPeer(src: string, chunk: Bytes) returns (records: seq<Record>)
      requires Valid() && src in statuses
      modifies this`peers, framers[src]
      ensures Valid()
      ensures var peer := old(peers)[src];
              var (framer, out) := Fed(mode, max, peer.framer, chunk);
              records == out &&
              peers == old(peers)[src := peer.(framer := framer, chunks := peer.chunks + [chunk])]
    {
      records := framers[src].Feed(chunk);
      ghost var peer := peers[src];
      peers := peers[src := peer.(framer := framers[src].State(), chunks := peer.chunks + [chunk])];
    }

    method FlushPeer(src: string) returns (record: Option<Record>)
      requires Valid() && src in statuses
      modifies this`peers, this`statuses, framers[src]
      ensures Valid()
      ensures peers == old(peers)[src := Left(mode, max, old(peers)[src])]
      ensures record == Flushed(mode, max, old(peers)[src].framer).1
    {
      record := framers[src].Flush();
      statuses := statuses[src := Closed];
      peers := peers[src := peers[src].(framer := framers[src].State(), status := Closed, flushed := true)];
    }
  }

  class ReceiverEngine {
    const sink: SinkWriter
    const transport: TcpServerReceiver

    ghost function State(): System
      reads sink, transport
    {
      System(sink.State(), transport.State())
    }

    ghost predicate Valid()
      reads sink, transport, transport.framers.Values
    {
      transport.Valid() && FileReady(sink.State())
    }

    constructor (sink: SinkWriter, transport: TcpServerReceiver)
      requires transport.Valid() && FileReady(sink.State())
      ensures Valid() && this.sink == sink && this.transport == transport
    {
      this.sink, this.transport := sink, transport;
    }

    /** The callback for one event of the sink. */
    method HandleSinkEvent(event: Event)
      requires Valid()
      modifies transport`paused, transport`statuses, transport`peers
      ensures Valid() && transport.State() == Heed(old(transport.State()), [event])
    {
      assert [event][..0] == [];
      assert Heed(transport.State(), []) == transport.State();
      if event.HighWatermark? {
        transport.SetPaused(true);
      } else if event.LowWatermark? {
        transport.SetPaused(false);
      }
    }

    /** The events that the sink has emitted since there were `from` of them. */
    method HandleSinkEvents(from: nat)
      requires Valid() && from <= |sink.events|
      modifies transport`paused, transport`statuses, transport`peers
      ensures Valid() && transport.State() == Heed(old(transport.State()), sink.events[from..])
    {
      ghost var more := sink.events[from..];
      var i := from;
      while i < |sink.events|
        invariant from <= i <= |sink.events| && Valid()
        invariant transport.State() == Heed(old(transport.State()), more[..i - from])
      {
        HeedOne(old(transport.State()), more, i - from);
        HandleSinkEvent(sink.events[i]);
        i := i + 1;
      }
      assert more[..|more|] == more;
    }

    method HandleRecord(src: string, record: Record)
      requires Valid()
      modifies sink, transport`paused, transport`statuses, transport`peers
      ensures Valid() && State() == Deliver(old(State()), src, record)
    {
      var from := |sink.events|;
      var submitted := sink.Submit(record, src);
      HandleSinkEvents(from);
    }

    method DeliverRecords(src: string, records: seq<Record>)
      requires Valid()
      modifies sink, transport`paused, transport`statuses, transport`peers
      ensures Valid() && State() == DeliverAll(old(State()), src, records)
    {
      for i := 0 to |records|
        invariant Valid() && State() == DeliverAll(old(State()), src, records[..i])
      {
        assert records[..i + 1][..i] == records[..i];
        HandleRecord(src, records[i]);
      }
      assert records[..|records|] == records;
    }

    /** After the read loop: the trailing record, if any. */
    method LeavePeer(src: string)
      requires Valid() && src in transport.peers
      modifies sink, transport`paused, transport`statuses, transport`peers, transport.framers[src]
      ensures Valid() && State() == Finish(old(State()), src)
    {
      var record := transport.FlushPeer(src);
      assert State() == WithPeer(old(State()), src, Left(transport.mode, transport.max, old(transport.peers)[src]));
      DeliverRecords(src, Optional(record));
    }

    /** The top of the read loop. */
    method PeerGate(src: string)
      requires Valid() && src in transport.peers
      modifies sink, transport`paused, transport`statuses, transport`peers, transport.framers[src]
      ensures Valid() && State() == Gate(old(State()), src)
    {
      if !transport.running {
        LeavePeer(src);
      } else if transport.paused {
        transport.SetStatus(src, Waiting);
      } else {
        transport.SetStatus(src, Reading);
      }
    }

    method PeerConnected(src: string)
      requires Valid() && (src in transport.peers ==> transport.peers[src].status.Closed?)
      modifies sink, transport
      ensures Valid() && State() == DoConnect(old(State()), src)
    {
      transport.AddPeer(src);
      PeerGate(src);
    }

    /** A chunk has arrived: feed, deliver everything, and return to the gate. */
    method PeerRead(src: string, chunk: Bytes)
      requires Valid() && src in transport.peers && transport.peers[src].status.Reading? && chunk != []
      modifies sink, transport`paused, transport`statuses, transport`peers, transport.framers[src]
      ensures Valid() && State() == DoRead(old(State()), src, chunk)
    {
      var records := transport.FeedPeer(src, chunk);
      ghost var peer, fed := old(transport.peers)[src], State();
      assert fed == WithPeer(old(State()), src, peer.(framer := Fed(transport.mode, transport.max, peer.framer, chunk).0,
                                                      chunks := peer.chunks + [chunk]));
      DeliverRecords(src, records);
      DeliverKeepsPeers(fed, src, records);
      PeerGate(src);
    }

    /** End of stream or a connection error. */
    method PeerEof(src: string)
      requires Valid() && src in transport.peers && transport.peers[src].status.Reading?
      modifies sink, transport`paused, transport`statuses, transport`peers, transport.framers[src]
      ensures Valid() && State() == DoEof(old(State()), src)
    {
      LeavePeer(src);
    }

    method PeerCancelled(src: string)
      requires Valid() && src in transport.peers && !transport.peers[src].status.Closed?
      modifies transport
      ensures Valid() && State() == DoCancel(old(State()), src)
    {
      transport.SetStatus(src, Closed);
    }

    method ConfigureSink(cfg: Config)
      requires Valid()
      modifies sink
      ensures Valid() && State() == Follow(old(State()), S.Configure(old(sink.State()), cfg))
    {
      sink.Configure(cfg);
      assert sink.events[|old(sink.events)|..] == [];
    }

    /** One turn of the sink's drain loop, with the callbacks it makes. */
    method DrainTurn(line: Bytes)
      requires Valid()
      modifies sink, transport`paused, transport`statuses, transport`peers
      ensures Valid() && State() == Follow(old(State()), Drain(old(sink.State()), line))
    {
      var from := |sink.events|;
      DrainEvents(sink.State(), line);
      sink.DrainOne(line);
      HandleSinkEvents(from);
    }
  }
}
