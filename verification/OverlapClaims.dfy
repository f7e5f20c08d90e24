/** What goes wrong when broadcasts overlap, or an id is used again too soon. */
module OverlapClaims {
  import opened Splitting
  import opened ConnectionSteps
  import opened BroadcastSteps
  import opened BroadcastClaims

  /** The broadcast has given the client up, or has still to reach it. */
  predicate Missed(work: Work, id: string) {
    work.Suspended? && (id == work.slow || id in work.rest)
  }

  /** What a stretch of a broadcast appends to a client's queue. */
  lemma {:induction false} SpreadAppends(y: Sender, order: seq<string>, payload: Bytes, now: real, id: string)
    requires Distinct(order) && id in y.clients
    ensures var z := Spread(y, order, payload, now);
            z.th == y.th && id in z.clients &&
            z.clients[id].payloads == y.clients[id].payloads + if id in order && !Missed(z.work, id) then [payload] else []
    decreases |order|
  {
    if order == [] {
      EmptyRight(y.clients[id].payloads);
    } else {
      TailOrder(order);
      if Rejects(y, order[0], payload) {
        EmptyRight(y.clients[id].payloads);
      } else {
        var u := Offered(y, order[0], payload, now);
        SpreadAppends(u, order[1..], payload, now, id);
        if id == order[0] {
          NeverMissed(u, order[1..], payload, now, id);
          EmptyRight(u.clients[id].payloads);
        }
      }
    }
  }

  lemma {:induction false} NeverMissed(y: Sender, order: seq<string>, payload: Bytes, now: real, id: string)
    requires id !in order
    ensures !Missed(Spread(y, order, payload, now).work, id)
    decreases |order|
  {
    if order != [] {
      assert order[0] in order && forall other | other in order[1..] :: other in order;
      if !Rejects(y, order[0], payload) {
        NeverMissed(Offered(y, order[0], payload, now), order[1..], payload, now, id);
      }
    }
  }

  lemma BroadcastAppends(y: Sender, payload: Bytes, order: seq<string>, now: real, id: string)
    requires y.work.Idle? && payload != [] && IsOrder(order, y.ready) && id in y.clients
    ensures var z := DoBroadcast(y, payload, order, now);
            id in z.clients &&
            z.clients[id].payloads == y.clients[id].payloads + if id in y.ready && !Missed(z.work, id) then [payload] else []
  {
    SpreadAppends(y.(log := y.log + [payload]), order, payload, now, id);
    assert id in order <==> id in (set other | other in order);
  }

  lemma ResumeAppends(y: Sender, now: real, id: string)
    requires y.work.Suspended? && Distinct(y.work.rest) && id in y.clients && id != y.work.slow
    ensures var z := DoResume(y, now);
            id in z.clients &&
            z.clients[id].payloads ==
              y.clients[id].payloads + if id in y.work.rest && !Missed(z.work, id) then [y.work.payload] else []
  {
    SpreadAppends(Unregister(y, y.work.slow), y.work.rest, y.work.payload, now, id);
  }

  /** A second broadcast begins and goes on while one is suspended, which is then resumed. */
  function Overlapped(y: Sender, second: Bytes, order: seq<string>, now: real): (Sender, Sender)
    requires y.work.Suspended?
  {
    var z := DoBroadcast(y.(work := Idle), second, order, now);
    (z, DoResume(z.(work := y.work), now))
  }

  /**
   A broadcast that begins while another is suspended overtakes it: a client gets the second payload
   if it is ready, and after that the first one if that has still to reach it.  So the two come in
   the wrong order exactly to the clients that are in both and are not given up on the way.
   */
  lemma OverlapReorders(y: Sender, second: Bytes, order: seq<string>, now: real, id: string)
    requires Inv(y) && y.work.Suspended? && second != [] && IsOrder(order, y.ready)
    requires id in y.clients && id != y.work.slow
    ensures var (z, w) := Overlapped(y, second, order, now);
            id in w.clients &&
            w.clients[id].payloads == y.clients[id].payloads +
              (if id in y.ready && !Missed(z.work, id) then [second] else []) +
              (if id in y.work.rest && !Missed(w.work, id) then [y.work.payload] else [])
  {
    BroadcastAppends(y.(work := Idle), second, order, now, id);
    ResumeAppends(Overlapped(y, second, order, now).0.(work := y.work), now, id);
  }

  // ----- A run that comes to an overlap ----------------------------------

  /** Two ready clients whose queues hold these payloads, and nothing under way. */
  ghost predicate Pair(y: Sender, a: string, b: string, forA: seq<Bytes>, forB: seq<Bytes>) {
    y.th.hardCap == 2 && y.ready == {a, b} && y.work.Idle? && a in y.clients && b in y.clients && b in y.traces &&
    y.clients[a].payloads == forA && y.clients[a].bytes == TotalLength(forA) &&
    y.clients[b].payloads == forB && y.clients[b].bytes == TotalLength(forB)
  }

  lemma PairJoins(th: Thresholds, a: string, b: string, now: real)
    requires th.hardCap == 2 && a != b
    ensures Pair(DoConnect(DoConnect(Initial(th, false, []), a, now), b, now), a, b, [], [])
  {
  }

  lemma PairOrder(a: string, b: string)
    requires a != b
    ensures IsOrder([a, b], {a, b}) && [a, b][1..] == [b] && [b][1..] == []
  {
  }

  lemma OneTotal(payload: Bytes)
    ensures TotalLength([payload]) == |payload|
  {
    assert [payload][1..] == [];
  }

  lemma PairFilled(y: Sender, a: string, b: string, payload: Bytes, now: real)
    requires a != b && Pair(y, a, b, [], []) && |payload| == 2
    ensures Pair(DoBroadcast(y, payload, [a, b], now), a, b, [payload], [payload])
  {
    PairOrder(a, b);
    OneTotal(payload);
    var z := y.(log := y.log + [payload]);
    var u := Offered(z, a, payload, now);
    assert Spread(z, [a, b], payload, now) == Spread(u, [b], payload, now) == Spread(Offered(u, b, payload, now), [], payload, now);
  }

  lemma PairWritten(y: Sender, a: string, b: string, payload: Bytes, now: real)
    requires a != b && Pair(y, a, b, [payload], [payload]) && |payload| == 2
    ensures Pair(DoWrite(y, b, now), a, b, [payload], [])
  {
    OneTotal(payload);
  }

  lemma PairSuspends(y: Sender, a: string, b: string, payload: Bytes, first: Bytes, now: real)
    requires a != b && Pair(y, a, b, [payload], []) && |payload| == 2 && |first| == 1
    ensures var z := DoBroadcast(y, first, [a, b], now);
            z.work == Suspended(a, [b], first) && z.ready == {b} && b in z.clients && z.clients[b] == y.clients[b]
  {
    PairOrder(a, b);
    OneTotal(payload);
  }

  /** Both queues are filled, one is emptied, and the next broadcast is suspended at the other. */
  function OverlapSteps(a: string, b: string, payload: Bytes, first: Bytes, now: real): seq<Step> {
    [Connect(a, now)] + [Connect(b, now)] + [Broadcast(payload, [a, b], now)] + [Write(b, now)] + [Broadcast(first, [a, b], now)]
  }

  lemma RunMore(y: Sender, steps: seq<Step>, step: Step)
    ensures Run(y, steps + [step]) == Next(Run(y, steps), step)
  {
    assert (steps + [step])[..|steps|] == steps;
  }

  lemma RunFive(y: Sender, a: Step, b: Step, c: Step, d: Step, e: Step)
    ensures Run(y, [a] + [b] + [c] + [d] + [e]) == Next(Next(Next(Next(Next(y, a), b), c), d), e)
  {
    EmptyLeft([a]);
    RunMore(y, [], a);
    RunMore(y, [a], b);
    RunMore(y, [a] + [b], c);
    RunMore(y, [a] + [b] + [c], d);
    RunMore(y, [a] + [b] + [c] + [d], e);
  }

  lemma OverlapState(th: Thresholds, a: string, b: string, payload: Bytes, first: Bytes, now: real)
    requires th.hardCap == 2 && a != b && |payload| == 2 && |first| == 1
    ensures var y := Run(Initial(th, false, []), OverlapSteps(a, b, payload, first, now));
            y.work == Suspended(a, [b], first) && y.ready == {b} && y.th.hardCap == 2 &&
            b in y.clients && y.clients[b].payloads == [] && y.clients[b].bytes == 0
  {
    var y0 := Initial(th, false, []);
    var joined := DoConnect(DoConnect(y0, a, now), b, now);
    var full := DoBroadcast(joined, payload, [a, b], now);
    RunFive(y0, Connect(a, now), Connect(b, now), Broadcast(payload, [a, b], now), Write(b, now), Broadcast(first, [a, b], now));
    PairJoins(th, a, b, now);
    PairFilled(joined, a, b, payload, now);
    PairWritten(full, a, b, payload, now);
    PairSuspends(DoWrite(full, b, now), a, b, payload, first, now);
  }

  lemma OverlapAtOne(y: Sender, b: string, second: Bytes, now: real)
    requires y.work.Suspended? && y.work.slow != b && y.work.rest == [b] && y.ready == {b} && second != []
    requires b in y.clients && y.clients[b].payloads == [] && y.clients[b].bytes == 0
    requires |second| + |y.work.payload| <= y.th.hardCap
    ensures IsOrder([b], y.ready)
    ensures var w := Overlapped(y, second, [b], now).1;
            b in w.clients && w.clients[b].payloads == [second, y.work.payload]
  {
    assert forall id :: id in [b] <==> id == b;
    BroadcastOne(y.(work := Idle), b, second, now);
    ResumeOne(Overlapped(y, second, [b], now).0.(work := y.work), b, now);
  }

  lemma BroadcastOne(y: Sender, id: string, payload: Bytes, now: real)
    requires y.work.Idle? && payload != [] && IsOrder([id], y.ready) && id in y.clients && Fits(y.th, y.clients[id], payload)
    ensures var z := DoBroadcast(y, payload, [id], now);
            z.th == y.th && z.clients == y.clients[id := Pushed(y.th, y.clients[id], payload, now)]
  {
    SpreadOne(y.(log := y.log + [payload]), id, payload, now);
  }

  lemma ResumeOne(y: Sender, id: string, now: real)
    requires y.work.Suspended? && y.work.rest == [id] && id != y.work.slow && id in y.clients
    requires Fits(y.th, y.clients[id], y.work.payload)
    ensures id in DoResume(y, now).clients
    ensures DoResume(y, now).clients[id] == Pushed(y.th, y.clients[id], y.work.payload, now)
  {
    SpreadOne(Unregister(y, y.work.slow), id, y.work.payload, now);
  }

  /** A run after which a second broadcast reaches a client before the first one. */
  lemma OverlapReached(th: Thresholds, a: string, b: string, payload: Bytes, first: Bytes, second: Bytes, now: real)
    requires th.hardCap == 2 && a != b && |payload| == 2 && |first| == |second| == 1
    ensures var y := Run(Initial(th, false, []), OverlapSteps(a, b, payload, first, now));
            y.work.Suspended? && y.ready == {b} && IsOrder([b], y.ready) &&
            var w := Overlapped(y, second, [b], now).1;
            b in w.clients && w.clients[b].payloads == [second, first]
  {
    OverlapState(th, a, b, payload, first, now);
    OverlapAtOne(Run(Initial(th, false, []), OverlapSteps(a, b, payload, first, now)), b, second, now);
  }

  // ----- Ids that are used again too soon --------------------------------

  /**
   A client that connects under the id of one still being disconnected is unregistered when that
   disconnection ends, and stays ready without a queue, exactly if it got ready at all.
   */
  lemma ReusedIdLost(y: Sender, id: string, now: real)
    requires Inv(y) && id in y.leaving
    ensures var z := EndDisconnect(Connected(y, id, now), id);
            id !in z.clients && (z.ready <= z.clients.Keys <==> HeaderFor(y) != [] && |y.header| > y.th.hardCap)
  {
    var z := EndDisconnect(Connected(y, id, now), id);
    if HeaderFor(y) != [] && |y.header| > y.th.hardCap {
      assert z.ready <= y.ready - {id};
    } else {
      assert id in z.ready;
    }
  }
}
