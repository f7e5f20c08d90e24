/** The connection manager object, which changes its clients in place. */
module Connections {
  import opened Splitting
  import opened Framing
  import opened ConnectionSteps

  class ConnectionManager {
    const thresholds: Thresholds
    var clients: Clients
    /** The clients in the order of their registration. */
    var order: seq<string>
    ghost var past: map<string, seq<Op>>

    ghost predicate Valid()
      reads this
    {
      Tracked(thresholds, clients, past) && forall id :: id in clients <==> id in order
    }

    constructor (thresholds: Thresholds)
      ensures Valid() && this.thresholds == thresholds && clients == map[]
    {
      this.thresholds := thresholds;
      clients, order, past := map[], [], map[];
    }

    method RegisterClient(id: string)
      requires Valid()
      modifies this
      ensures Valid() && clients == old(clients)[id := NewClient] && past == old(past)[id := []]
      ensures order == if id in old(clients) then old(order) else old(order) + [id]
    {
      if id !in clients {
        order := order + [id];
      }
      clients := clients[id := NewClient];
      past := past[id := []];
    }

    method UnregisterClient(id: string)
      requires Valid()
      modifies this
      ensures Valid() && clients == old(clients) - {id} && past == old(past) - {id}
      ensures order == Without(old(order), id)
    {
      clients := clients - {id};
      past := past - {id};
      forall other {
        WithoutKeeps(order, id, other);
      }
      order := Without(order, id);
    }

    method EnqueuePayload(id: string, payload: Bytes, now: real) returns (verdict: Verdict)
      requires Valid()
      modifies this
      ensures Valid() && order == old(order)
      ensures (clients, verdict) == Enqueue(thresholds, old(clients), id, payload, now)
      ensures past == Noted(old(clients), old(past), id, Push(payload, now))
    {
      if id !in clients {
        return ClientNotFound;
      }
      TrackedEnqueue(thresholds, clients, past, id, payload, now);
      ghost var noted := Noted(clients, past, id, Push(payload, now));
      var state := clients[id];
      var nextBytes := state.bytes + |payload|;
      if nextBytes > thresholds.hardCap {
        past := noted;
        return HardCapExceeded;
      }
      var next := state.(payloads := state.payloads + [payload], bytes := nextBytes);
      StoreUpdated(id, next, now);
      past := noted;
      return Accepted;
    }

    method PopNextPayload(id: string, now: real) returns (payload: Option<Bytes>)
      requires Valid()
      modifies this
      ensures Valid() && order == old(order)
      ensures (clients, payload) == Pop(thresholds, old(clients), id, now)
      ensures past == Noted(old(clients), old(past), id, Take(now))
    {
      TrackedPop(thresholds, clients, past, id, now);
      ghost var noted := Noted(clients, past, id, Take(now));
      if id !in clients || clients[id].payloads == [] {
        past := noted;
        return None;
      }
      var state := clients[id];
      payload := Some(state.payloads[0]);
      var left := state.bytes - |state.payloads[0]|;
      var next := state.(payloads := state.payloads[1..], bytes := if left > 0 then left else 0);
      StoreUpdated(id, next, now);
      past := noted;
    }

    method StoreUpdated(id: string, next: Client, now: real)
      requires id in clients
      modifies this`clients
      ensures clients == old(clients)[id := Updated(thresholds, next, now)]
    {
      Twice(clients, id, next, Updated(thresholds, next, now));
      clients := clients[id := next];
      UpdateBlockedState(id, now);
    }

    method UpdateBlockedState(id: string, now: real)
      requires id in clients
      modifies this`clients
      ensures clients == old(clients)[id := Updated(thresholds, old(clients)[id], now)]
    {
      var state := clients[id];
      if state.bytes >= thresholds.high {
        if !state.blocked {
          clients := clients[id := state.(blocked := true, since := Some(now))];
        }
        return;
      }
      if state.bytes <= thresholds.low {
        clients := clients[id := state.(blocked := false, since := None)];
      }
    }

    /** In registration order, the clients whose current episode has lasted for the timeout. */
    method GetDisconnectCandidates(now: real) returns (candidates: seq<string>)
      requires Valid()
      ensures candidates == OverdueOf(thresholds, clients, order, now)
      ensures ExactlyOverdue(thresholds, clients, past, now, candidates)
    {
      candidates := [];
      for k := 0 to |order|
        invariant candidates == OverdueOf(thresholds, clients, order[..k], now)
      {
        assert order[..k + 1][..k] == order[..k];
        var state := clients[order[k]];
        if !state.blocked || state.since.None? {
          continue;
        }
        if now - state.since.value >= thresholds.timeout {
          candidates := candidates + [order[k]];
        }
      }
      assert order[..|order|] == order;
      CandidatesExact(thresholds, clients, past, order, now);
    }
  }
}
