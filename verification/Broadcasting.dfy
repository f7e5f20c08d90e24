/** The TCP server sender object, which carries out the steps in place. */
module Broadcasting {
  import opened Splitting
  import opened Framing
  import opened ConnectionSteps
  import opened B = BroadcastSteps
  import opened Connections

  /** A stretch of a broadcast does not depend on where the one before it ended. */
  lemma {:induction false} SpreadAnyWork(y: Sender, work: Work, order: seq<string>, payload: Bytes, now: real)
    ensures Spread(y.(work := work), order, payload, now) == Spread(y, order, payload, now)
    decreases |order|
  {
    if order != [] && !Rejects(y, order[0], payload) {
      assert Offered(y.(work := work), order[0], payload, now) == Offered(y, order[0], payload, now).(work := work);
      SpreadAnyWork(Offered(y, order[0], payload, now), work, order[1..], payload, now);
    }
  }

  class TcpServerSender {
    const manager: ConnectionManager
    var ready: set<string>
    var event: bool
    var sendHeader: bool
    var header: Bytes
    ghost var leaving: multiset<string>
    ghost var log: seq<Bytes>
    ghost var traces: map<string, Trace>

    /** The state when no broadcast is under way. */
    ghost function State(): Sender
      reads this, manager
    {
      Sender(manager.thresholds, manager.clients, ready, event, Idle, leaving, sendHeader, header, log, traces)
    }

    /** The state as a broadcast sees it that is suspended as `work` says. */
    ghost function During(work: Work): Sender
      reads this, manager
    {
      State().(work := work)
    }

    ghost predicate Valid()
      reads this, manager
    {
      manager.Valid()
    }

    constructor (th: Thresholds, sendHeader: bool, header: Bytes)
      ensures Valid() && fresh(manager) && State() == B.Initial(th, sendHeader, header)
    {
      manager := new ConnectionManager(th);
      ready, event := {}, false;
      this.sendHeader, this.header := sendHeader, header;
      leaving, log, traces := multiset{}, [], map[];
    }

    method UpdateHeader(sendHeader: bool, header: Bytes)
      requires Valid()
      modifies this
      ensures Valid() && State() == B.Next(old(State()), B.UpdateHeader(sendHeader, header))
    {
      this.sendHeader, this.header := sendHeader, header;
    }

    /** Up to the reader task. */
    method OnClientConnected(id: string, now: real)
      requires Valid()
      modifies this, manager
      ensures Valid() && State() == Connected(old(State()), id, now)
    {
      manager.RegisterClient(id);
      traces := traces[id := Trace([], |log|, |log|, [], [])];
      if sendHeader && header != [] {
        var sent := EnqueueHeader(id, now);
        if !sent {
          BeginDisconnect(id);
          return;
        }
      }
      ready := ready + {id};
      event := true;
    }

    /** The header goes first into the queue of a new client, if it fits. */
    method EnqueueHeader(id: string, now: real) returns (sent: bool)
      requires Valid() && id in manager.clients && id in traces
      modifies this`traces, manager
      ensures Valid()
      ensures sent <==> Enqueue(manager.thresholds, old(manager.clients), id, header, now).1 == Accepted
      ensures State() == if sent then Headed(old(State()), id, header, now) else old(State())
    {
      var verdict := manager.EnqueuePayload(id, header, now);
      sent := verdict == Accepted;
      if sent {
        traces := traces[id := traces[id].(head := [header])];
      }
    }

    method BeginDisconnect(id: string)
      requires Valid()
      modifies this
      ensures Valid() && State() == B.BeginDisconnect(old(State()), id)
    {
      if id !in manager.clients {
        return;
      }
      DiscardReady(id);
      leaving := leaving + multiset{id};
    }

    method DiscardReady(id: string)
      requires Valid()
      modifies this
      ensures Valid() && State() == Discard(old(State()), id)
    {
      ready := ready - {id};
      if ready == {} {
        event := false;
      }
    }

    method Unregister(id: string)
      requires Valid()
      modifies this, manager
      ensures Valid() && State() == B.Unregister(old(State()), id)
    {
      if id in manager.clients && id in traces {
        traces := traces[id := traces[id].(lost := manager.clients[id].payloads)];
      }
      assert id !in manager.clients ==> manager.clients - {id} == manager.clients;
      manager.UnregisterClient(id);
    }

    /** The end of a disconnection that some task began. */
    method EndDisconnect(id: string)
      requires Valid() && id in leaving
      modifies this, manager
      ensures Valid() && State() == B.EndDisconnect(old(State()), id)
    {
      Unregister(id);
      leaving := leaving - multiset{id};
    }

    /**
     `order` is the order in which the snapshot of the ready set is gone through; `work` is where
     the coroutine is suspended, if it is.  Other broadcasts may be suspended meanwhile.
     */
    method Broadcast(payload: Bytes, order: seq<string>, now: real) returns (work: Work)
      requires Valid() && IsOrder(order, ready)
      modifies this, manager
      ensures Valid() && During(work) == DoBroadcast(old(State()), payload, order, now)
    {
      if payload == [] {
        return Idle;
      }
      log := log + [payload];
      work := SpreadOver(order, payload, now);
    }

    /** A suspended broadcast goes on when its slow client is gone. */
    method Resume(suspended: Work, now: real) returns (work: Work)
      requires Valid() && suspended.Suspended?
      modifies this, manager
      ensures Valid() && During(work) == DoResume(old(During(suspended)), now)
    {
      Unregister(suspended.slow);
      SpreadAnyWork(State(), suspended, suspended.rest, suspended.payload, now);
      work := SpreadOver(suspended.rest, suspended.payload, now);
    }

    method SpreadOver(order: seq<string>, payload: Bytes, now: real) returns (work: Work)
      requires Valid()
      modifies this, manager
      ensures Valid() && During(work) == Spread(old(State()), order, payload, now)
    {
      var i := 0;
      while i < |order|
        invariant i <= |order| && Valid()
        invariant Spread(State(), order[i..], payload, now) == Spread(old(State()), order, payload, now)
      {
        assert order[i..][0] == order[i] && order[i..][1..] == order[i + 1..];
        var verdict := OfferTo(order[i], payload, now);
        if verdict == HardCapExceeded {
          DiscardReady(order[i]);
          return Suspended(order[i], order[i + 1..], payload);
        }
        i := i + 1;
      }
      return Idle;
    }

    method OfferTo(id: string, payload: Bytes, now: real) returns (verdict: Verdict)
      requires Valid()
      modifies this, manager
      ensures Valid() && State() == Offered(old(State()), id, payload, now)
      ensures verdict == HardCapExceeded <==> Rejects(old(State()), id, payload)
    {
      verdict := manager.EnqueuePayload(id, payload, now);
      if verdict == Accepted && id in traces {
        traces := traces[id := traces[id].(to := traces[id].to + 1)];
      }
    }

    /** The writer's turn: the payload it sends next, if there is one. */
    method Write(id: string, now: real) returns (payload: Option<Bytes>)
      requires Valid() && manager.clients.Keys <= traces.Keys
      modifies this, manager
      ensures Valid() && State() == DoWrite(old(State()), id, now)
      ensures payload == Pop(manager.thresholds, old(manager.clients), id, now).1
    {
      payload := manager.PopNextPayload(id, now);
      if payload.Some? {
        traces := traces[id := traces[id].(taken := traces[id].taken + [payload.value])];
      }
    }
  }
}
