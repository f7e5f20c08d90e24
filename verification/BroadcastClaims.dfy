/** What every client receives, and what the ready set is worth. */
module BroadcastClaims {
  import opened Splitting
  import opened ConnectionSteps
  import opened BroadcastSteps

  /** What has gone into a client's queue and is not taken yet. */
  function Waiting(y: Sender, id: string): seq<Bytes>
    requires id in y.traces
  {
    if id in y.clients then y.clients[id].payloads else y.traces[id].lost
  }

  /** All that was ever queued for the client is its header and one contiguous part of the log. */
  ghost predicate InShape(y: Sender, id: string)
    requires id in y.traces
  {
    var t := y.traces[id];
    t.from <= t.to <= |y.log| && t.taken + Waiting(y, id) == t.head + y.log[t.from..t.to]
  }

  /** With the broadcast still to reach `rest`: those lack only its payload, other ready clients nothing. */
  ghost predicate UpToDate(y: Sender, rest: seq<string>, id: string)
    requires id in y.traces
  {
    (id in rest ==> y.traces[id].to + 1 == |y.log|) && (id in y.ready && id !in rest ==> y.traces[id].to == |y.log|)
  }

  ghost predicate Placed(y: Sender, rest: seq<string>) {
    y.clients.Keys <= y.traces.Keys && (forall id | id in rest :: id in y.traces) && Distinct(rest) &&
    forall id | id in y.traces :: InShape(y, id) && UpToDate(y, rest, id)
  }

  /** The event is set exactly while a client is ready, and ready clients are registered. */
  ghost predicate ReadySound(y: Sender) {
    (y.event <==> y.ready != {}) && y.ready <= y.clients.Keys <= y.traces.Keys &&
    forall id | id in y.leaving :: id in y.traces && id !in y.ready
  }

  function Rest(y: Sender): seq<string> {
    if y.work.Idle? then [] else y.work.rest
  }

  /** A suspended broadcast is that of the last log entry, and has given up `slow`. */
  ghost predicate Suspension(y: Sender) {
    y.work.Suspended? ==>
      y.log != [] && y.work.payload == y.log[|y.log| - 1] &&
      y.work.slow in y.traces && y.work.slow !in y.ready && y.work.slow !in y.work.rest
  }

  ghost predicate Inv(y: Sender) {
    Placed(y, Rest(y)) && ReadySound(y) && Suspension(y)
  }

  // ----- One client at a time --------------------------------------------

  /** `z` differs from `y` only in client `id`. */
  ghost predicate OnlyClient(y: Sender, z: Sender, id: string) {
    z.log == y.log && y.traces.Keys <= z.traces.Keys <= y.traces.Keys + {id} && z.clients.Keys <= y.clients.Keys + {id} &&
    (forall other | other in y.traces && other != id :: z.traces[other] == y.traces[other]) &&
    (forall other | other in y.clients && other != id :: other in z.clients && z.clients[other] == y.clients[other])
  }

  lemma OthersPlaced(y: Sender, z: Sender, rest: seq<string>, id: string)
    requires Placed(y, rest) && OnlyClient(y, z, id) && id in z.traces && z.ready - {id} <= y.ready
    requires InShape(z, id) && UpToDate(z, rest, id)
    ensures Placed(z, rest)
  {
    forall other | other in z.traces ensures InShape(z, other) && UpToDate(z, rest, other) {
      if other != id {
        assert InShape(y, other) && UpToDate(y, rest, other);
      }
    }
  }

  // ----- Steps -----------------------------------------------------------

  lemma PlacedFrame(y: Sender, z: Sender, rest: seq<string>)
    requires Placed(y, rest)
    requires z.clients == y.clients && z.traces == y.traces && z.log == y.log && z.ready <= y.ready
    ensures Placed(z, rest)
  {
    forall other | other in z.traces ensures InShape(z, other) && UpToDate(z, rest, other) {
      assert InShape(y, other) && UpToDate(y, rest, other);
    }
  }

  lemma PlacedUnregister(y: Sender, rest: seq<string>, id: string)
    requires Placed(y, rest)
    ensures Placed(Unregister(y, id), rest)
  {
    if id in y.clients {
      var z := Unregister(y, id);
      assert InShape(y, id) && UpToDate(y, rest, id);
      OthersPlaced(y, z, rest, id);
    }
  }

  lemma PlacedConnect(y: Sender, rest: seq<string>, id: string, head: seq<Bytes>, c: Client, z: Sender)
    requires Placed(y, rest) && id !in rest && c.payloads == head
    requires z.clients == y.clients[id := c] && z.log == y.log
    requires z.traces == y.traces[id := Trace(head, |y.log|, |y.log|, [], [])] && z.ready - {id} <= y.ready
    ensures Placed(z, rest)
  {
    assert y.log[|y.log|..|y.log|] == [];
    assert [] + head == head + [];
    OthersPlaced(y, z, rest, id);
  }

  lemma ShapeWrite(y: Sender, id: string, now: real)
    requires id in y.traces && id in y.clients && y.clients[id].payloads != [] && InShape(y, id)
    ensures InShape(DoWrite(y, id, now), id)
  {
    var payloads, taken := y.clients[id].payloads, y.traces[id].taken;
    assert payloads == [payloads[0]] + payloads[1..];
    Associative(taken, [payloads[0]], payloads[1..]);
  }

  lemma WriteFrame(y: Sender, id: string, now: real)
    ensures var z := DoWrite(y, id, now);
            z == y.(clients := z.clients, traces := z.traces) && OnlyClient(y, z, id) &&
            z.clients.Keys == y.clients.Keys && z.traces.Keys == y.traces.Keys
  {
  }

  lemma WriteSame(y: Sender, id: string, now: real)
    requires id in y.traces && !(id in y.clients && y.clients[id].payloads != [])
    ensures DoWrite(y, id, now) == y
  {
  }

  lemma PlacedWrite(y: Sender, rest: seq<string>, id: string, now: real)
    requires Placed(y, rest) && id in y.traces
    ensures Placed(DoWrite(y, id, now), rest)
  {
    var z := DoWrite(y, id, now);
    assert InShape(y, id) && UpToDate(y, rest, id);
    WriteFrame(y, id, now);
    if id in y.clients && y.clients[id].payloads != [] {
      ShapeWrite(y, id, now);
    } else {
      WriteSame(y, id, now);
    }
    WriteUpToDate(y, rest, id, now);
    OthersPlaced(y, z, rest, id);
  }

  lemma WriteUpToDate(y: Sender, rest: seq<string>, id: string, now: real)
    requires id in y.traces && UpToDate(y, rest, id)
    ensures id in DoWrite(y, id, now).traces && UpToDate(DoWrite(y, id, now), rest, id)
  {
  }

  lemma SliceMore<T>(s: seq<T>, i: nat, j: nat)
    requires i <= j < |s|
    ensures s[i..j + 1] == s[i..j] + [s[j]]
  {
  }

  /** A client that accepts the payload has its part of the log lengthened by it. */
  lemma ShapeOffered(y: Sender, id: string, payload: Bytes, now: real)
    requires id in y.traces && InShape(y, id)
    requires y.traces[id].to + 1 == |y.log| && payload == y.log[|y.log| - 1]
    ensures InShape(Offered(y, id, payload, now), id)
  {
    if Enqueue(y.th, y.clients, id, payload, now).1 == Accepted {
      var t, queued := y.traces[id], y.clients[id].payloads;
      SliceMore(y.log, t.from, t.to);
      Associative(t.taken, queued, [payload]);
      Associative(t.head, y.log[t.from..t.to], [payload]);
    }
  }

  /** A client that is not ready any more, or takes what it is offered, is done with. */
  lemma PlacedOffered(y: Sender, order: seq<string>, payload: Bytes, now: real)
    requires Placed(y, order) && order != [] && y.ready <= y.clients.Keys
    requires y.log != [] && payload == y.log[|y.log| - 1] && !Rejects(y, order[0], payload)
    ensures Placed(Offered(y, order[0], payload, now), order[1..])
  {
    var id, z := order[0], Offered(y, order[0], payload, now);
    assert InShape(y, id) && UpToDate(y, order, id);
    ShapeOffered(y, id, payload, now);
    TailOrder(order);
    OfferedFrame(y, id, payload, now);
    forall other | other in z.traces ensures InShape(z, other) && UpToDate(z, order[1..], other) {
      if other != id {
        assert InShape(y, other) && UpToDate(y, order, other);
      }
    }
  }

  lemma OfferedFrame(y: Sender, id: string, payload: Bytes, now: real)
    ensures var z := Offered(y, id, payload, now);
            z.clients.Keys == y.clients.Keys && z.traces.Keys == y.traces.Keys && z.ready == y.ready && z.log == y.log
  {
  }

  lemma TailOrder(order: seq<string>)
    requires order != [] && Distinct(order)
    ensures Distinct(order[1..]) && order[0] !in order[1..]
    ensures forall id :: id in order <==> id == order[0] || id in order[1..]
  {
    assert order == [order[0]] + order[1..];
  }

  /** A client given up is left out of the rest of the broadcast. */
  lemma PlacedGiveUp(y: Sender, order: seq<string>)
    requires Placed(y, order) && order != []
    ensures Placed(Discard(y, order[0]), order[1..])
  {
    var z := Discard(y, order[0]);
    TailOrder(order);
    forall other | other in z.traces ensures InShape(z, other) && UpToDate(z, order[1..], other) {
      assert InShape(y, other) && UpToDate(y, order, other);
    }
  }

  lemma SuspendInv(y: Sender, order: seq<string>, payload: Bytes)
    requires Placed(y, order) && ReadySound(y) && order != []
    requires y.log != [] && payload == y.log[|y.log| - 1]
    ensures Inv(Discard(y, order[0]).(work := Suspended(order[0], order[1..], payload)))
  {
    var z := Discard(y, order[0]);
    PlacedGiveUp(y, order);
    TailOrder(order);
    PlacedFrame(z, z.(work := Suspended(order[0], order[1..], payload)), order[1..]);
  }

  lemma {:induction false} SpreadInv(y: Sender, order: seq<string>, payload: Bytes, now: real)
    requires Placed(y, order) && ReadySound(y)
    requires y.log != [] && payload == y.log[|y.log| - 1]
    ensures Inv(Spread(y, order, payload, now))
    decreases |order|
  {
    if order == [] {
      PlacedFrame(y, y.(work := Idle), []);
    } else if Rejects(y, order[0], payload) {
      SuspendInv(y, order, payload);
    } else {
      PlacedOffered(y, order, payload, now);
      OfferedSound(y, order[0], payload, now);
      SpreadInv(Offered(y, order[0], payload, now), order[1..], payload, now);
    }
  }

  lemma OfferedSound(y: Sender, id: string, payload: Bytes, now: real)
    requires ReadySound(y)
    ensures ReadySound(Offered(y, id, payload, now)) && Offered(y, id, payload, now).log == y.log
  {
  }

  lemma BroadcastInv(y: Sender, payload: Bytes, order: seq<string>, now: real)
    requires Inv(y)
    ensures Inv(DoBroadcast(y, payload, order, now))
  {
    if payload != [] && y.work.Idle? && IsOrder(order, y.ready) {
      var z := y.(log := y.log + [payload]);
      PlacedLogged(y, order, payload);
      SpreadInv(z, order, payload, now);
    }
  }

  /** A new log entry is still to reach every ready client. */
  lemma PlacedLogged(y: Sender, order: seq<string>, payload: Bytes)
    requires Placed(y, []) && ReadySound(y) && IsOrder(order, y.ready)
    ensures Placed(y.(log := y.log + [payload]), order)
  {
    var z := y.(log := y.log + [payload]);
    assert forall id :: id in order <==> id in (set id | id in order);
    forall other | other in z.traces ensures InShape(z, other) && UpToDate(z, order, other) {
      assert InShape(y, other) && UpToDate(y, [], other);
      var t := y.traces[other];
      assert (y.log + [payload])[t.from..t.to] == y.log[t.from..t.to];
    }
  }

  lemma ResumeInv(y: Sender, now: real)
    requires Inv(y)
    ensures Inv(DoResume(y, now))
  {
    if y.work.Suspended? {
      var z := Unregister(y, y.work.slow);
      UnregisterInv(y, y.work.slow);
      assert z.work == y.work && z.log == y.log;
      SpreadInv(z, y.work.rest, y.work.payload, now);
    }
  }

  lemma JoinInv(y: Sender, id: string, head: seq<Bytes>, c: Client, z: Sender)
    requires Inv(y) && !InUse(y, id) && c.payloads == head
    requires z == y.(clients := y.clients[id := c], traces := y.traces[id := Trace(head, |y.log|, |y.log|, [], [])],
                     ready := y.ready + {id}, event := true)
    ensures Inv(z)
  {
    PlacedConnect(y, Rest(y), id, head, c, z);
    JoinSound(y, id, c, z);
  }

  lemma JoinSound(y: Sender, id: string, c: Client, z: Sender)
    requires ReadySound(y) && Suspension(y) && !InUse(y, id) && id in z.traces
    requires z == y.(clients := y.clients[id := c], traces := y.traces[id := z.traces[id]],
                     ready := y.ready + {id}, event := true)
    ensures ReadySound(z) && Suspension(z)
  {
  }

  lemma RefuseInv(y: Sender, id: string)
    requires Inv(y) && !InUse(y, id)
    ensures Inv(BeginDisconnect(Registered(y, id), id))
  {
    PlacedConnect(y, Rest(y), id, [], NewClient, BeginDisconnect(Registered(y, id), id));
  }

  lemma ConnectInv(y: Sender, id: string, now: real)
    requires Inv(y)
    ensures Inv(DoConnect(y, id, now))
  {
    if !InUse(y, id) {
      var z := DoConnect(y, id, now);
      if HeaderFor(y) == [] {
        JoinInv(y, id, [], NewClient, z);
      } else if Enqueue(y.th, Registered(y, id).clients, id, y.header, now).1 != Accepted {
        RefuseInv(y, id);
      } else {
        HeadedIs(y, id, y.header, now);
        JoinInv(y, id, [y.header], Pushed(y.th, NewClient, y.header, now), z);
      }
    }
  }

  lemma HeadedIs(y: Sender, id: string, header: Bytes, now: real)
    requires Enqueue(y.th, Registered(y, id).clients, id, header, now).1 == Accepted
    ensures var c := Pushed(y.th, NewClient, header, now);
            c.payloads == [header] &&
            Headed(Registered(y, id), id, header, now) ==
              y.(clients := y.clients[id := c], traces := y.traces[id := Trace([header], |y.log|, |y.log|, [], [])])
  {
    Twice(y.clients, id, NewClient, Pushed(y.th, NewClient, header, now));
    assert [] + [header] == [header];
  }

  lemma InvFrame(y: Sender, z: Sender)
    requires Inv(y) && Placed(z, Rest(y)) && z.clients.Keys == y.clients.Keys && z.traces.Keys == y.traces.Keys
    requires z == y.(clients := z.clients, traces := z.traces)
    ensures Inv(z)
  {
  }

  lemma WriteInv(y: Sender, id: string, now: real)
    requires Inv(y)
    ensures Inv(DoWrite(y, id, now))
  {
    WriteFrame(y, id, now);
    if id in y.traces {
      PlacedWrite(y, Rest(y), id, now);
    } else {
      PlacedFrame(y, DoWrite(y, id, now), Rest(y));
    }
    InvFrame(y, DoWrite(y, id, now));
  }

  lemma DisconnectInv(y: Sender, id: string)
    requires Inv(y)
    ensures Inv(BeginDisconnect(y, id))
  {
    PlacedFrame(y, BeginDisconnect(y, id), Rest(y));
    DisconnectSound(y, id);
  }

  lemma DisconnectSound(y: Sender, id: string)
    requires ReadySound(y) && Suspension(y)
    ensures ReadySound(BeginDisconnect(y, id)) && Suspension(BeginDisconnect(y, id))
  {
  }

  lemma UnregisterInv(y: Sender, id: string)
    requires Inv(y) && id !in y.ready
    ensures Inv(Unregister(y, id))
  {
    PlacedUnregister(y, Rest(y), id);
  }

  lemma LeftInv(y: Sender, leaving: multiset<string>)
    requires Inv(y) && leaving <= y.leaving
    ensures Inv(y.(leaving := leaving))
  {
    PlacedFrame(y, y.(leaving := leaving), Rest(y));
  }

  lemma DisconnectedInv(y: Sender, id: string)
    requires Inv(y)
    ensures Inv(EndDisconnect(y, id))
  {
    if id in y.leaving {
      UnregisterInv(y, id);
      LeftInv(Unregister(y, id), y.leaving - multiset{id});
    }
  }

  /** Every step keeps the invariant. */
  lemma NextInv(y: Sender, step: Step)
    requires Inv(y)
    ensures Inv(Next(y, step))
  {
    match step
    case Connect(id, now) => ConnectInv(y, id, now);
    case Broadcast(payload, order, now) => BroadcastInv(y, payload, order, now);
    case Resume(now) => ResumeInv(y, now);
    case Write(id, now) => WriteInv(y, id, now);
    case Disconnect(id) => DisconnectInv(y, id);
    case Disconnected(id) => DisconnectedInv(y, id);
    case UpdateHeader(sendHeader, header) => PlacedFrame(y, Next(y, step), Rest(y));
  }

  lemma {:induction false} RunInv(y: Sender, steps: seq<Step>)
    requires Inv(y)
    ensures Inv(Run(y, steps))
  {
    if steps != [] {
      var n := |steps| - 1;
      RunInv(y, steps[..n]);
      NextInv(Run(y, steps[..n]), steps[n]);
    }
  }

  // ----- Where a client joined -------------------------------------------

  /** The header that a client gets when it connects: if there is one and it fits. */
  function HeaderSent(y: Sender): seq<Bytes> {
    if HeaderFor(y) != [] && |y.header| <= y.th.hardCap then [y.header] else []
  }

  ghost predicate SameJoin(y: Sender, z: Sender, id: string) {
    id in y.traces && id in z.traces && z.traces[id].head == y.traces[id].head && z.traces[id].from == y.traces[id].from
  }

  /** The id was free, and its client gets the header of the moment and the log from here on. */
  ghost predicate Joins(y: Sender, z: Sender, id: string) {
    !InUse(y, id) && id in z.traces && z.traces[id].head == HeaderSent(y) && z.traces[id].from == |y.log|
  }

  /** Where `id` joined is as before, or here. */
  ghost predicate JoinKept(y: Sender, z: Sender, id: string, connects: bool) {
    id in z.traces ==> SameJoin(y, z, id) || (connects && Joins(y, z, id))
  }

  lemma {:induction false} SpreadKeepsJoin(y: Sender, order: seq<string>, payload: Bytes, now: real, id: string)
    ensures JoinKept(y, Spread(y, order, payload, now), id, false)
    decreases |order|
  {
    if order != [] && !Rejects(y, order[0], payload) {
      SpreadKeepsJoin(Offered(y, order[0], payload, now), order[1..], payload, now, id);
    }
  }

  lemma ConnectKeepsJoin(y: Sender, other: string, now: real, id: string)
    ensures JoinKept(y, DoConnect(y, other, now), id, other == id)
  {
    if !InUse(y, other) && HeaderFor(y) != [] && Enqueue(y.th, Registered(y, other).clients, other, y.header, now).1 == Accepted {
      HeadedIs(y, other, y.header, now);
    }
  }

  lemma ConnectJoins(y: Sender, id: string, now: real)
    requires !InUse(y, id)
    ensures var z := DoConnect(y, id, now);
            Joins(y, z, id) && z.traces[id].to == |y.log| && z.log == y.log && z.work == y.work && z.th == y.th
    ensures HeaderSent(y) != [] ==> var z := DoConnect(y, id, now);
            id in z.ready && id in z.clients && z.clients[id].payloads == [y.header] && z.clients[id].bytes == |y.header|
  {
    if HeaderFor(y) != [] && Enqueue(y.th, Registered(y, id).clients, id, y.header, now).1 == Accepted {
      HeadedIs(y, id, y.header, now);
    }
  }

  lemma WriteKeepsJoin(y: Sender, other: string, now: real, id: string)
    ensures JoinKept(y, DoWrite(y, other, now), id, false)
  {
  }

  lemma NextKeepsJoin(y: Sender, step: Step, id: string)
    ensures JoinKept(y, Next(y, step), id, step.Connect? && step.id == id)
  {
    match step
    case Connect(other, now) => ConnectKeepsJoin(y, other, now, id);
    case Broadcast(payload, order, now) => BroadcastKeepsJoin(y, payload, order, now, id);
    case Resume(now) => ResumeKeepsJoin(y, now, id);
    case Write(other, now) => WriteKeepsJoin(y, other, now, id);
    case Disconnect(other) => LeavingKeepsJoin(y, other, id);
    case Disconnected(other) => LeavingKeepsJoin(y, other, id);
    case UpdateHeader(_, _) =>
  }

  lemma BroadcastKeepsJoin(y: Sender, payload: Bytes, order: seq<string>, now: real, id: string)
    ensures JoinKept(y, DoBroadcast(y, payload, order, now), id, false)
  {
    SpreadKeepsJoin(y.(log := y.log + [payload]), order, payload, now, id);
  }

  lemma ResumeKeepsJoin(y: Sender, now: real, id: string)
    ensures JoinKept(y, DoResume(y, now), id, false)
  {
    if y.work.Suspended? {
      SpreadKeepsJoin(Unregister(y, y.work.slow), y.work.rest, y.work.payload, now, id);
    }
  }

  lemma LeavingKeepsJoin(y: Sender, other: string, id: string)
    ensures JoinKept(y, BeginDisconnect(y, other), id, false) && JoinKept(y, EndDisconnect(y, other), id, false)
  {
  }

  /** Step `n` connected the client that now has this id. */
  ghost predicate JoinedAt(y0: Sender, steps: seq<Step>, id: string, n: nat) {
    n < |steps| && steps[n].Connect? && steps[n].id == id && Joins(Run(y0, steps[..n]), Run(y0, steps), id)
  }

  /** Every client has joined at some step. */
  lemma {:induction false} JoinPoint(y0: Sender, steps: seq<Step>, id: string) returns (n: nat)
    requires y0.traces == map[] && id in Run(y0, steps).traces
    ensures JoinedAt(y0, steps, id, n)
  {
    var m := |steps| - 1;
    var y := Run(y0, steps[..m]);
    NextKeepsJoin(y, steps[m], id);
    if SameJoin(y, Run(y0, steps), id) {
      n := JoinPoint(y0, steps[..m], id);
      assert steps[..m][..n] == steps[..n];
    } else {
      n := m;
    }
  }

  // ----- The claims ------------------------------------------------------

  /**
   In every reachable state, also while disconnections nest: the ready event is set exactly
   while a client is ready, and every ready client is registered.
   */
  lemma ReadyExactly(th: Thresholds, sendHeader: bool, header: Bytes, steps: seq<Step>)
    ensures var y := Run(Initial(th, sendHeader, header), steps);
            (y.event <==> y.ready != {}) && y.ready <= y.clients.Keys
  {
    RunInv(Initial(th, sendHeader, header), steps);
  }

  /**
   What a client has been sent and what is still queued for it is, in order and without gaps,
   its header followed by the broadcast log from where it joined; while it is ready and no
   broadcast is suspended, up to the last entry.  The header is the one in force at the step that
   connected the client, if it fits, and the log is the one of that step.
   */
  lemma StreamShape(th: Thresholds, sendHeader: bool, header: Bytes, steps: seq<Step>, id: string)
    ensures var y := Run(Initial(th, sendHeader, header), steps);
            id in y.traces ==>
              var t := y.traces[id];
              t.from <= t.to <= |y.log| &&
              t.taken + (if id in y.clients then y.clients[id].payloads else t.lost) == t.head + y.log[t.from..t.to] &&
              (id in y.ready && y.work.Idle? ==> t.to == |y.log|) &&
              exists n :: JoinedAt(Initial(th, sendHeader, header), steps, id, n)
  {
    var y := Run(Initial(th, sendHeader, header), steps);
    RunInv(Initial(th, sendHeader, header), steps);
    if id in y.traces {
      assert InShape(y, id) && UpToDate(y, Rest(y), id);
      var n := JoinPoint(Initial(th, sendHeader, header), steps, id);
    }
  }

  // ----- Reaching one client ---------------------------------------------

  /** Going on with other clients leaves this one's history as it is. */
  lemma {:induction false} SpreadLeaves(y: Sender, order: seq<string>, payload: Bytes, now: real, id: string)
    requires id !in order && id in y.traces
    ensures var z := Spread(y, order, payload, now);
            id in z.traces && z.traces[id] == y.traces[id] && z.log == y.log
    decreases |order|
  {
    if order != [] {
      assert order[0] in order && forall other | other in order[1..] :: other in order;
      if !Rejects(y, order[0], payload) {
        SpreadLeaves(Offered(y, order[0], payload, now), order[1..], payload, now, id);
      }
    }
  }

  /** The first client of the order gets a payload that fits into its queue. */
  lemma SpreadFirst(y: Sender, order: seq<string>, payload: Bytes, now: real)
    requires order != [] && Distinct(order) && order[0] in y.clients && order[0] in y.traces
    requires Fits(y.th, y.clients[order[0]], payload)
    ensures var z := Spread(y, order, payload, now);
            order[0] in z.traces && z.traces[order[0]] == y.traces[order[0]].(to := y.traces[order[0]].to + 1)
  {
    TailOrder(order);
    SpreadLeaves(Offered(y, order[0], payload, now), order[1..], payload, now, order[0]);
  }

  /** The ready clients can be gone through beginning with any of them. */
  lemma {:induction false} OrderFrom(ready: set<string>, id: string) returns (order: seq<string>)
    requires id in ready
    ensures IsOrder(order, ready) && order != [] && order[0] == id
  {
    var rest := SomeOrder(ready - {id});
    order := [id] + rest;
    OrderMore(rest, ready - {id}, id);
  }

  lemma OrderMore(rest: seq<string>, ready: set<string>, id: string)
    requires IsOrder(rest, ready) && id !in ready
    ensures IsOrder([id] + rest, ready + {id})
  {
    assert forall other :: other in rest <==> other in (set x | x in rest);
  }

  lemma {:induction false} SomeOrder(ready: set<string>) returns (order: seq<string>)
    ensures IsOrder(order, ready)
  {
    if ready == {} {
      order := [];
    } else {
      var id :| id in ready;
      var rest := SomeOrder(ready - {id});
      order := [id] + rest;
      OrderMore(rest, ready - {id}, id);
      assert ready - {id} + {id} == ready;
    }
  }

  /** A new client whose header is written has an empty queue. */
  lemma WriteHeader(y: Sender, id: string, now: real)
    requires id in y.clients && id in y.traces && |y.clients[id].payloads| == 1
    requires y.clients[id].bytes == |y.clients[id].payloads[0]|
    ensures var z := DoWrite(y, id, now);
            id in z.clients && id in z.traces && z.clients[id].payloads == [] && z.clients[id].bytes == 0 &&
            z.ready == y.ready && z.work == y.work && z.log == y.log && z.th == y.th &&
            z.traces[id] == y.traces[id].(taken := z.traces[id].taken)
  {
  }

  /** A client that connects, writes its header and is reached first by the next broadcast. */
  lemma ReachFirst(y: Sender, id: string, payload: Bytes, now: real) returns (order: seq<string>)
    requires !InUse(y, id) && HeaderSent(y) != [] && y.work.Idle? && payload != [] && |payload| <= y.th.hardCap
    ensures var z := DoWrite(DoConnect(y, id, now), id, now);
            var w := DoBroadcast(z, payload, order, now);
            z.work.Idle? && z.ready != {} && IsOrder(order, z.ready) &&
            Joins(y, w, id) && w.traces[id].to == |y.log| + 1
  {
    ConnectJoins(y, id, now);
    var joined := DoConnect(y, id, now);
    WriteHeader(joined, id, now);
    var z := DoWrite(joined, id, now);
    order := OrderFrom(z.ready, id);
    SpreadFirst(z.(log := z.log + [payload]), order, payload, now);
  }

  /** A payload that fits goes to the end of the client's queue. */
  lemma SpreadOne(y: Sender, id: string, payload: Bytes, now: real)
    requires id in y.clients && Fits(y.th, y.clients[id], payload)
    ensures var z := Spread(y, [id], payload, now);
            z.th == y.th && z.clients == y.clients[id := Pushed(y.th, y.clients[id], payload, now)]
  {
    assert [id][1..] == [];
  }

  // ----- A segment that has ended ----------------------------------------

  /** The client is out of reach of this broadcast and of all later ones. */
  ghost predicate Ended(y: Sender, id: string) {
    id in y.traces && id !in y.ready && id !in Rest(y)
  }

  /** From `y` to `z` nothing was queued for the client. */
  ghost predicate NothingAdded(y: Sender, z: Sender, id: string)
    requires id in y.traces && id in z.traces
  {
    var t, u := y.traces[id], z.traces[id];
    u.head == t.head && u.from == t.from && u.to == t.to && t.taken <= u.taken
  }

  lemma {:induction false} SpreadEnded(y: Sender, order: seq<string>, payload: Bytes, now: real, id: string)
    requires id in y.traces && id !in y.ready && id !in order
    ensures var z := Spread(y, order, payload, now);
            Ended(z, id) && z.traces[id] == y.traces[id]
    decreases |order|
  {
    if order != [] {
      assert order[0] in order && forall other | other in order[1..] :: other in order;
      if !Rejects(y, order[0], payload) {
        SpreadEnded(Offered(y, order[0], payload, now), order[1..], payload, now, id);
      }
    }
  }

  lemma EndedConnect(y: Sender, other: string, now: real, id: string)
    requires Ended(y, id) && other != id
    ensures Ended(DoConnect(y, other, now), id) && DoConnect(y, other, now).traces[id] == y.traces[id]
  {
  }

  lemma EndedBroadcast(y: Sender, payload: Bytes, order: seq<string>, now: real, id: string)
    requires Ended(y, id)
    ensures var z := DoBroadcast(y, payload, order, now);
            Ended(z, id) && z.traces[id] == y.traces[id]
  {
    if payload != [] && y.work.Idle? && IsOrder(order, y.ready) {
      assert id in order ==> id in (set other | other in order);
      SpreadEnded(y.(log := y.log + [payload]), order, payload, now, id);
    }
  }

  lemma EndedResume(y: Sender, now: real, id: string)
    requires Ended(y, id)
    ensures Ended(DoResume(y, now), id) && NothingAdded(y, DoResume(y, now), id)
  {
    if y.work.Suspended? {
      SpreadEnded(Unregister(y, y.work.slow), y.work.rest, y.work.payload, now, id);
    }
  }

  lemma EndedWrite(y: Sender, other: string, now: real, id: string)
    requires Ended(y, id)
    ensures Ended(DoWrite(y, other, now), id) && NothingAdded(y, DoWrite(y, other, now), id)
  {
    WriteFrame(y, other, now);
  }

  /** The step does not connect the id anew. */
  predicate StaysAway(step: Step, id: string) {
    step.Connect? ==> step.id != id
  }

  lemma EndedNext(y: Sender, step: Step, id: string)
    requires Ended(y, id) && StaysAway(step, id)
    ensures Ended(Next(y, step), id) && NothingAdded(y, Next(y, step), id)
  {
    match step
    case Connect(other, now) => EndedConnect(y, other, now, id);
    case Broadcast(payload, order, now) => EndedBroadcast(y, payload, order, now, id);
    case Resume(now) => EndedResume(y, now, id);
    case Write(other, now) => EndedWrite(y, other, now, id);
    case Disconnect(other) =>
    case Disconnected(other) =>
    case UpdateHeader(_, _) =>
  }

  /** Once a client is out of reach, nothing is ever queued for it until it connects anew. */
  lemma {:induction false} SegmentEnds(y: Sender, steps: seq<Step>, id: string)
    requires Ended(y, id) && forall step | step in steps :: StaysAway(step, id)
    ensures Ended(Run(y, steps), id) && NothingAdded(y, Run(y, steps), id)
  {
    if steps != [] {
      var n := |steps| - 1;
      SegmentEnds(y, steps[..n], id);
      EndedNext(Run(y, steps[..n]), steps[n], id);
    }
  }

  /** A rejected payload ends its client's part of the log for good. */
  lemma {:induction false} RejectionEnds(y: Sender, steps: seq<Step>)
    requires Inv(y) && y.work.Suspended? && forall step | step in steps :: StaysAway(step, y.work.slow)
    ensures Ended(Run(y, steps), y.work.slow) && NothingAdded(y, Run(y, steps), y.work.slow)
  {
    SegmentEnds(y, steps, y.work.slow);
  }

  // ----- Disconnections --------------------------------------------------

  /** A client whose disconnection begins is not ready any more, and unless a broadcast has still to reach it, nothing is queued for it again. */
  lemma DisconnectEnds(y: Sender, steps: seq<Step>, id: string)
    requires Inv(y) && id in y.clients && forall step | step in steps :: StaysAway(step, id)
    ensures var z := BeginDisconnect(y, id);
            id !in z.ready && id in z.leaving && z.ready == y.ready - {id} && z.clients == y.clients &&
            (id !in Rest(y) ==> Ended(Run(z, steps), id) && NothingAdded(y, Run(z, steps), id))
  {
    if id !in Rest(y) {
      SegmentEnds(BeginDisconnect(y, id), steps, id);
    }
  }

  lemma ConnectKeys(y: Sender, id: string, now: real)
    ensures var z := DoConnect(y, id, now);
            y.traces.Keys <= z.traces.Keys && z.clients.Keys <= y.clients.Keys + {id} && y.leaving <= z.leaving
  {
  }

  lemma GoneStays(y: Sender, step: Step, id: string)
    requires (id in y.leaving || id !in y.clients) && StaysAway(step, id)
    ensures var z := Next(y, step);
            id in z.leaving || id !in z.clients
  {
    match step
    case Connect(other, now) => ConnectKeys(y, other, now);
    case Broadcast(payload, order, now) => SpreadKeepsClients(y.(log := y.log + [payload]), order, payload, now);
    case Resume(now) =>
      if y.work.Suspended? {
        SpreadKeepsClients(Unregister(y, y.work.slow), y.work.rest, y.work.payload, now);
      }
    case Write(other, now) => WriteFrame(y, other, now);
    case Disconnect(other) =>
    case Disconnected(other) =>
    case UpdateHeader(_, _) =>
  }

  lemma {:induction false} SpreadKeepsClients(y: Sender, order: seq<string>, payload: Bytes, now: real)
    ensures var z := Spread(y, order, payload, now);
            z.clients.Keys == y.clients.Keys && z.leaving == y.leaving
    decreases |order|
  {
    if order != [] && !Rejects(y, order[0], payload) {
      SpreadKeepsClients(Offered(y, order[0], payload, now), order[1..], payload, now);
    }
  }

  lemma {:induction false} GoneStaysRun(y: Sender, steps: seq<Step>, id: string)
    requires (id in y.leaving || id !in y.clients) && forall step | step in steps :: StaysAway(step, id)
    ensures var z := Run(y, steps);
            id in z.leaving || id !in z.clients
  {
    if steps != [] {
      var n := |steps| - 1;
      GoneStaysRun(y, steps[..n], id);
      GoneStays(Run(y, steps[..n]), steps[n], id);
    }
  }

  /** When a disconnection ends its client is unregistered, whatever happened meanwhile, and what it had queued is lost. */
  lemma DisconnectCompletes(y: Sender, steps: seq<Step>, id: string)
    requires Inv(y) && id in y.clients && forall step | step in steps :: StaysAway(step, id)
    ensures var w := Run(BeginDisconnect(y, id), steps);
            var z := EndDisconnect(w, id);
            id !in z.clients && id in z.traces && (id in w.clients ==> z.traces[id].lost == w.clients[id].payloads)
  {
    DisconnectInv(y, id);
    RunInv(BeginDisconnect(y, id), steps);
    GoneStaysRun(BeginDisconnect(y, id), steps, id);
    RunKeepsTraces(BeginDisconnect(y, id), steps, id);
  }

  lemma {:induction false} RunKeepsTraces(y: Sender, steps: seq<Step>, id: string)
    requires Inv(y) && id in y.traces
    ensures id in Run(y, steps).traces
  {
    if steps != [] {
      var n := |steps| - 1;
      RunKeepsTraces(y, steps[..n], id);
      RunInv(y, steps[..n]);
      NextKeepsTraces(Run(y, steps[..n]), steps[n], id);
    }
  }

  lemma NextKeepsTraces(y: Sender, step: Step, id: string)
    requires id in y.traces
    ensures id in Next(y, step).traces
  {
    match step
    case Connect(other, now) => ConnectKeys(y, other, now);
    case Broadcast(payload, order, now) => SpreadKeepsTraces(y.(log := y.log + [payload]), order, payload, now);
    case Resume(now) =>
      if y.work.Suspended? {
        SpreadKeepsTraces(Unregister(y, y.work.slow), y.work.rest, y.work.payload, now);
      }
    case Write(other, now) => WriteFrame(y, other, now);
    case Disconnect(other) =>
    case Disconnected(other) =>
    case UpdateHeader(_, _) =>
  }

  lemma {:induction false} SpreadKeepsTraces(y: Sender, order: seq<string>, payload: Bytes, now: real)
    ensures Spread(y, order, payload, now).traces.Keys == y.traces.Keys
    decreases |order|
  {
    if order != [] && !Rejects(y, order[0], payload) {
      SpreadKeepsTraces(Offered(y, order[0], payload, now), order[1..], payload, now);
    }
  }

  /** A broadcast goes on only when its slow client is unregistered, and what that had queued is lost. */
  lemma ResumeDrops(y: Sender, now: real)
    requires Inv(y) && y.work.Suspended?
    ensures var slow, z := y.work.slow, DoResume(y, now);
            slow !in z.clients && slow in z.traces &&
            (slow in y.clients ==> z.traces[slow] == y.traces[slow].(lost := y.clients[slow].payloads))
  {
    var u := Unregister(y, y.work.slow);
    SpreadKeepsClients(u, y.work.rest, y.work.payload, now);
    SpreadLeaves(u, y.work.rest, y.work.payload, now, y.work.slow);
  }

  // ----- Clients do not affect one another -------------------------------

  /** What the loop does to a client's queue depends on that client alone. */
  lemma {:induction false} ClientsApart(y: Sender, order: seq<string>, payload: Bytes, now: real, id: string)
    requires Distinct(order) && id in y.clients
    ensures var z := Spread(y, order, payload, now);
            id in z.clients &&
            z.clients[id] == if id in order && id !in Rest(z) then Pushed(y.th, y.clients[id], payload, now) else y.clients[id]
    decreases |order|
  {
    if order != [] {
      TailOrder(order);
      if !Rejects(y, order[0], payload) {
        var u := Offered(y, order[0], payload, now);
        ClientsApart(u, order[1..], payload, now, id);
        RestOf(u, order[1..], payload, now, order[0]);
      }
    }
  }

  lemma {:induction false} RestOf(y: Sender, order: seq<string>, payload: Bytes, now: real, id: string)
    requires id !in order
    ensures id !in Rest(Spread(y, order, payload, now)) && |Rest(Spread(y, order, payload, now))| <= |order|
    ensures Spread(y, order, payload, now).work.Suspended? ==> |Rest(Spread(y, order, payload, now))| < |order|
    decreases |order|
  {
    if order != [] {
      assert forall other | other in order[1..] :: other in order;
      if !Rejects(y, order[0], payload) {
        RestOf(Offered(y, order[0], payload, now), order[1..], payload, now, id);
      }
    }
  }

  // ----- Nothing over the cap --------------------------------------------

  predicate AllCapped(payloads: seq<Bytes>, cap: int) {
    forall payload | payload in payloads :: |payload| <= cap
  }

  /** Nothing longer than the cap was ever queued. */
  ghost predicate Capped(y: Sender) {
    (forall id | id in y.clients :: y.clients[id].bytes >= 0 && AllCapped(y.clients[id].payloads, y.th.hardCap)) &&
    forall id | id in y.traces :: AllCapped(y.traces[id].taken, y.th.hardCap) && AllCapped(y.traces[id].lost, y.th.hardCap)
  }

  lemma CappedOffered(y: Sender, id: string, payload: Bytes, now: real)
    requires Capped(y)
    ensures Capped(Offered(y, id, payload, now)) && Offered(y, id, payload, now).th == y.th
  {
  }

  lemma {:induction false} CappedSpread(y: Sender, order: seq<string>, payload: Bytes, now: real)
    requires Capped(y)
    ensures Capped(Spread(y, order, payload, now)) && Spread(y, order, payload, now).th == y.th
    decreases |order|
  {
    if order != [] && !Rejects(y, order[0], payload) {
      CappedOffered(y, order[0], payload, now);
      CappedSpread(Offered(y, order[0], payload, now), order[1..], payload, now);
    }
  }

  lemma CappedConnect(y: Sender, id: string, now: real)
    requires Capped(y)
    ensures Capped(DoConnect(y, id, now)) && DoConnect(y, id, now).th == y.th
  {
    var z := DoConnect(y, id, now);
    if !InUse(y, id) {
      if HeaderFor(y) != [] && Enqueue(y.th, Registered(y, id).clients, id, y.header, now).1 == Accepted {
        HeadedIs(y, id, y.header, now);
      }
      CappedJoin(y, id, z);
    }
  }

  /** A new client has an empty queue, or one header that fits. */
  lemma CappedJoin(y: Sender, id: string, z: Sender)
    requires Capped(y) && id in z.clients && id in z.traces && z.th == y.th
    requires z.clients == y.clients[id := z.clients[id]] && z.traces == y.traces[id := z.traces[id]]
    requires z.clients[id].bytes >= 0 && AllCapped(z.clients[id].payloads, y.th.hardCap)
    requires z.traces[id].taken == [] && z.traces[id].lost == []
    ensures Capped(z)
  {
  }

  lemma CappedUnregister(y: Sender, id: string)
    requires Capped(y)
    ensures Capped(Unregister(y, id)) && Unregister(y, id).th == y.th
  {
  }

  lemma CappedWrite(y: Sender, id: string, now: real)
    requires Capped(y)
    ensures Capped(DoWrite(y, id, now)) && DoWrite(y, id, now).th == y.th
  {
  }

  lemma CappedNext(y: Sender, step: Step)
    requires Capped(y)
    ensures Capped(Next(y, step)) && Next(y, step).th == y.th
  {
    match step
    case Connect(id, now) => CappedConnect(y, id, now);
    case Broadcast(payload, order, now) => CappedSpread(y.(log := y.log + [payload]), order, payload, now);
    case Resume(now) =>
      if y.work.Suspended? {
        CappedUnregister(y, y.work.slow);
        CappedSpread(Unregister(y, y.work.slow), y.work.rest, y.work.payload, now);
      }
    case Write(id, now) => CappedWrite(y, id, now);
    case Disconnect(id) =>
    case Disconnected(id) => CappedUnregister(y, id);
    case UpdateHeader(_, _) =>
  }

  /** So everything in a client's part of the log is within the cap. */
  lemma EntryCapped(y: Sender, id: string, k: nat)
    requires Capped(y) && id in y.traces && InShape(y, id)
    requires y.traces[id].from <= k < y.traces[id].to
    ensures k < |y.log| && |y.log[k]| <= y.th.hardCap
  {
    var t := y.traces[id];
    var i := |t.head| + (k - t.from);
    assert (t.head + y.log[t.from..t.to])[i] == y.log[k];
    assert y.log[k] in t.taken + Waiting(y, id);
  }
}
