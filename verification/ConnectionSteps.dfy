/**
 Per-client queues of the TCP server sender (transport/connection_manager.py) as functions:
 a hard cap, and a blocked flag with hysteresis.
 */
module ConnectionSteps {
  import opened Splitting
  import opened Framing

  datatype Thresholds = Thresholds(high: int, low: int, hardCap: int, timeout: real)

  datatype Client = Client(payloads: seq<Bytes>, bytes: int, blocked: bool, since: Option<real>)

  type Clients = map<string, Client>

  datatype Verdict = Accepted | ClientNotFound | HardCapExceeded

  const NewClient := Client([], 0, false, None)

  function Updated(th: Thresholds, c: Client, now: real): Client {
    if c.bytes >= th.high then (if c.blocked then c else c.(blocked := true, since := Some(now)))
    else if c.bytes <= th.low then c.(blocked := false, since := None)
    else c
  }

  predicate Fits(th: Thresholds, c: Client, payload: Bytes) {
    c.bytes + |payload| <= th.hardCap
  }

  function Pushed(th: Thresholds, c: Client, payload: Bytes, now: real): Client {
    if !Fits(th, c, payload) then c
    else Updated(th, c.(payloads := c.payloads + [payload], bytes := c.bytes + |payload|), now)
  }

  function Popped(th: Thresholds, c: Client, now: real): Client {
    if c.payloads == [] then c
    else
      var left := c.bytes - |c.payloads[0]|;
      Updated(th, c.(payloads := c.payloads[1..], bytes := if left > 0 then left else 0), now)
  }

  function Enqueue(th: Thresholds, clients: Clients, id: string, payload: Bytes, now: real): (Clients, Verdict) {
    if id !in clients then (clients, ClientNotFound)
    else if !Fits(th, clients[id], payload) then (clients, HardCapExceeded)
    else (clients[id := Pushed(th, clients[id], payload, now)], Accepted)
  }

  function Pop(th: Thresholds, clients: Clients, id: string, now: real): (Clients, Option<Bytes>) {
    if id !in clients || clients[id].payloads == [] then (clients, None)
    else (clients[id := Popped(th, clients[id], now)], Some(clients[id].payloads[0]))
  }

  /** Blocked for as long as the timeout, or longer. */
  predicate Overdue(th: Thresholds, c: Client, now: real) {
    c.blocked && c.since.Some? && now - c.since.value >= th.timeout
  }

  function Without(ids: seq<string>, id: string): seq<string> {
    if ids == [] then []
    else (if ids[0] == id then [] else [ids[0]]) + Without(ids[1..], id)
  }

  lemma {:induction false} WithoutKeeps(ids: seq<string>, id: string, other: string)
    ensures other in Without(ids, id) <==> other in ids && other != id
  {
    if ids != [] {
      WithoutKeeps(ids[1..], id, other);
    }
  }

  function OverdueOf(th: Thresholds, clients: Clients, ids: seq<string>, now: real): seq<string> {
    if ids == [] then []
    else
      var n := |ids| - 1;
      OverdueOf(th, clients, ids[..n], now) +
      if ids[n] in clients && Overdue(th, clients[ids[n]], now) then [ids[n]] else []
  }

  /** Whoever comes earlier in the registration order comes earlier among the overdue. */
  lemma {:induction false} OverdueInOrder(th: Thresholds, clients: Clients, a: seq<string>, b: seq<string>, now: real)
    ensures OverdueOf(th, clients, a + b, now) == OverdueOf(th, clients, a, now) + OverdueOf(th, clients, b, now)
  {
    if b == [] {
      EmptyRight(a);
      EmptyRight(OverdueOf(th, clients, a, now));
    } else {
      var n := |b| - 1;
      var last := if b[n] in clients && Overdue(th, clients[b[n]], now) then [b[n]] else [];
      OverdueInOrder(th, clients, a, b[..n], now);
      assert (a + b)[..|a| + n] == a + b[..n] && (a + b)[|a| + n] == b[n];
      Associative(OverdueOf(th, clients, a, now), OverdueOf(th, clients, b[..n], now), last);
    }
  }

  // ----- One client's history --------------------------------------------

  datatype Op = Push(payload: Bytes, now: real) | Take(now: real)

  function After(th: Thresholds, c: Client, op: Op): Client {
    match op
    case Push(payload, now) => Pushed(th, c, payload, now)
    case Take(now) => Popped(th, c, now)
  }

  function Evolved(th: Thresholds, ops: seq<Op>): Client {
    if ops == [] then NewClient else After(th, Evolved(th, ops[..|ops| - 1]), ops[|ops| - 1])
  }

  /** The payloads that were let in, and those that were taken out. */
  function LetIn(th: Thresholds, ops: seq<Op>): seq<Bytes> {
    if ops == [] then []
    else
      var n := |ops| - 1;
      LetIn(th, ops[..n]) +
      if ops[n].Push? && Fits(th, Evolved(th, ops[..n]), ops[n].payload) then [ops[n].payload] else []
  }

  function TakenOut(th: Thresholds, ops: seq<Op>): seq<Bytes> {
    if ops == [] then []
    else
      var n := |ops| - 1;
      var c := Evolved(th, ops[..n]);
      TakenOut(th, ops[..n]) + if ops[n].Take? && c.payloads != [] then [c.payloads[0]] else []
  }

  /** The byte count is exact, and within the cap. */
  ghost predicate Exact(th: Thresholds, c: Client) {
    c.bytes == TotalLength(c.payloads) &&
    (c.payloads != [] ==> c.bytes <= th.hardCap && c.bytes - |c.payloads[0]| >= 0)
  }

  lemma ExactPushed(th: Thresholds, c: Client, payload: Bytes, now: real)
    requires Exact(th, c)
    ensures Exact(th, Pushed(th, c, payload, now))
  {
    TotalLengthAppend(c.payloads, [payload]);
    assert TotalLength([payload]) == |payload|;
    TotalAtLeastHead(c.payloads + [payload]);
  }

  lemma ExactPopped(th: Thresholds, c: Client, now: real)
    requires Exact(th, c)
    ensures Exact(th, Popped(th, c, now))
  {
    if c.payloads != [] {
      TotalAtLeastHead(c.payloads[1..]);
    }
  }

  /** First in, first out, within the cap; the byte count is exact, so clamping it at 0 does nothing. */
  lemma {:induction false} QueueConserves(th: Thresholds, ops: seq<Op>)
    ensures LetIn(th, ops) == TakenOut(th, ops) + Evolved(th, ops).payloads
    ensures Exact(th, Evolved(th, ops))
  {
    if ops != [] {
      var n := |ops| - 1;
      var c, taken := Evolved(th, ops[..n]), TakenOut(th, ops[..n]);
      QueueConserves(th, ops[..n]);
      match ops[n]
      case Push(payload, now) =>
        ExactPushed(th, c, payload, now);
        Associative(taken, c.payloads, if Fits(th, c, payload) then [payload] else []);
      case Take(now) =>
        ExactPopped(th, c, now);
        if c.payloads != [] {
          assert c.payloads == [c.payloads[0]] + c.payloads[1..];
          Associative(taken, [c.payloads[0]], c.payloads[1..]);
        }
    }
  }

  lemma TotalAtLeastHead(payloads: seq<Bytes>)
    ensures payloads != [] ==> |payloads[0]| <= TotalLength(payloads)
  {
  }

  // ----- Hysteresis as a statement about the history ---------------------

  datatype Mark = Mark(bytes: int, at: real)

  /** The queue sizes after every change of the queue, and when it happened. */
  function Marks(th: Thresholds, ops: seq<Op>): seq<Mark> {
    if ops == [] then []
    else
      var n := |ops| - 1;
      var c := Evolved(th, ops[..n]);
      Marks(th, ops[..n]) +
      if Changes(th, c, ops[n]) then [Mark(TotalLength(Evolved(th, ops).payloads), ops[n].now)] else []
  }

  predicate High(th: Thresholds, m: Mark) {
    m.bytes >= th.high
  }

  predicate Relief(th: Thresholds, m: Mark) {
    m.bytes < th.high && m.bytes <= th.low
  }

  /** The queue was high at the i-th mark, and no relief has followed. */
  ghost predicate Pending(th: Thresholds, marks: seq<Mark>, i: int) {
    0 <= i < |marks| && High(th, marks[i]) && forall j | i < j < |marks| :: !Relief(th, marks[j])
  }

  /** The mark that began the current episode. */
  ghost predicate EpisodeStart(th: Thresholds, marks: seq<Mark>, i: int) {
    Pending(th, marks, i) && forall k | k < i :: !Pending(th, marks, k)
  }

  /** The blocked flag and its time say exactly what the marks say. */
  ghost predicate Agrees(th: Thresholds, marks: seq<Mark>, c: Client) {
    (c.blocked <==> exists i :: Pending(th, marks, i)) &&
    (c.blocked ==> exists i :: EpisodeStart(th, marks, i) && c.since == Some(marks[i].at)) &&
    (!c.blocked ==> c.since == None)
  }

  lemma PendingBefore(th: Thresholds, marks: seq<Mark>, m: Mark, i: int)
    ensures i < |marks| ==> (Pending(th, marks + [m], i) <==> Pending(th, marks, i) && !Relief(th, m))
    ensures Pending(th, marks + [m], |marks|) <==> High(th, m)
  {
    if Pending(th, marks + [m], i) && i < |marks| {
      forall j | i < j < |marks| ensures !Relief(th, marks[j]) {
        assert (marks + [m])[j] == marks[j];
      }
      assert (marks + [m])[|marks|] == m;
    }
  }

  lemma AgreesMore(th: Thresholds, marks: seq<Mark>, before: Client, c: Client, now: real)
    requires Agrees(th, marks, before) && c.blocked == before.blocked && c.since == before.since
    ensures Agrees(th, marks + [Mark(c.bytes, now)], Updated(th, c, now))
  {
    var m := Mark(c.bytes, now);
    var n := |marks|;
    forall i {
      PendingBefore(th, marks, m, i);
    }
    if c.blocked && !Relief(th, m) {
      var i :| EpisodeStart(th, marks, i) && c.since == Some(marks[i].at);
      assert EpisodeStart(th, marks + [m], i);
    } else if High(th, m) {
      assert EpisodeStart(th, marks + [m], n);
    }
  }

  predicate Changes(th: Thresholds, c: Client, op: Op) {
    if op.Push? then Fits(th, c, op.payload) else c.payloads != []
  }

  lemma AgreesAfter(th: Thresholds, marks: seq<Mark>, c: Client, op: Op)
    requires Agrees(th, marks, c) && (c.payloads != [] ==> c.bytes - |c.payloads[0]| >= 0)
    ensures var d := After(th, c, op);
            Agrees(th, marks + if Changes(th, c, op) then [Mark(d.bytes, op.now)] else [], d)
  {
    if !Changes(th, c, op) {
      assert marks + [] == marks;
    } else {
      var d := if op.Push? then c.(payloads := c.payloads + [op.payload], bytes := c.bytes + |op.payload|)
               else c.(payloads := c.payloads[1..], bytes := c.bytes - |c.payloads[0]|);
      AgreesMore(th, marks, c, d, op.now);
      assert After(th, c, op) == Updated(th, d, op.now) && Updated(th, d, op.now).bytes == d.bytes;
    }
  }

  /**
   A client is blocked exactly if its queue was once at or above the high threshold and no
   relief (at or below the low one) has followed, and since the start of that episode.
   */
  lemma {:induction false} BlockedIffPending(th: Thresholds, ops: seq<Op>)
    ensures Agrees(th, Marks(th, ops), Evolved(th, ops))
  {
    if ops != [] {
      var n := |ops| - 1;
      BlockedIffPending(th, ops[..n]);
      QueueConserves(th, ops[..n]);
      QueueConserves(th, ops);
      AgreesAfter(th, Marks(th, ops[..n]), Evolved(th, ops[..n]), ops[n]);
    }
  }

  ghost predicate LongEpisode(th: Thresholds, marks: seq<Mark>, i: int, now: real) {
    EpisodeStart(th, marks, i) && now - marks[i].at >= th.timeout
  }

  lemma OneEpisode(th: Thresholds, marks: seq<Mark>, i: int, k: int)
    requires EpisodeStart(th, marks, i) && EpisodeStart(th, marks, k)
    ensures i == k
  {
  }

  lemma OverdueAgrees(th: Thresholds, marks: seq<Mark>, c: Client, now: real)
    requires Agrees(th, marks, c)
    ensures Overdue(th, c, now) <==> exists i :: LongEpisode(th, marks, i, now)
  {
    if c.blocked {
      var i :| EpisodeStart(th, marks, i) && c.since == Some(marks[i].at);
      forall k | EpisodeStart(th, marks, k) ensures k == i {
        OneEpisode(th, marks, i, k);
      }
      assert LongEpisode(th, marks, i, now) <==> Overdue(th, c, now);
    } else {
      forall k ensures !EpisodeStart(th, marks, k) {
        assert !Pending(th, marks, k);
      }
    }
  }

  /** So a client is overdue exactly if its current episode began a timeout ago, or earlier. */
  lemma OverdueIffEpisode(th: Thresholds, ops: seq<Op>, marks: seq<Mark>, now: real)
    requires marks == Marks(th, ops)
    ensures Overdue(th, Evolved(th, ops), now) <==> exists i :: LongEpisode(th, marks, i, now)
  {
    BlockedIffPending(th, ops);
    OverdueAgrees(th, marks, Evolved(th, ops), now);
  }

  // ----- All clients' histories ------------------------------------------

  /** Every client is as its history has made it. */
  ghost predicate Tracked(th: Thresholds, clients: Clients, past: map<string, seq<Op>>) {
    past.Keys == clients.Keys && forall id | id in clients :: clients[id] == Evolved(th, past[id])
  }

  function Noted(clients: Clients, past: map<string, seq<Op>>, id: string, op: Op): map<string, seq<Op>> {
    if id in clients && id in past then past[id := past[id] + [op]] else past
  }

  lemma TrackedAfter(th: Thresholds, clients: Clients, past: map<string, seq<Op>>, id: string, op: Op)
    requires Tracked(th, clients, past) && id in clients
    ensures Tracked(th, clients[id := After(th, clients[id], op)], Noted(clients, past, id, op))
  {
    assert (past[id] + [op])[..|past[id]|] == past[id];
  }

  lemma TrackedEnqueue(th: Thresholds, clients: Clients, past: map<string, seq<Op>>, id: string, payload: Bytes, now: real)
    requires Tracked(th, clients, past)
    ensures Tracked(th, Enqueue(th, clients, id, payload, now).0, Noted(clients, past, id, Push(payload, now)))
  {
    if id in clients {
      TrackedAfter(th, clients, past, id, Push(payload, now));
      Same(clients, id);
    }
  }

  lemma TrackedPop(th: Thresholds, clients: Clients, past: map<string, seq<Op>>, id: string, now: real)
    requires Tracked(th, clients, past)
    ensures Tracked(th, Pop(th, clients, id, now).0, Noted(clients, past, id, Take(now)))
  {
    if id in clients {
      TrackedAfter(th, clients, past, id, Take(now));
      Same(clients, id);
    }
  }

  lemma Same(clients: Clients, id: string)
    requires id in clients
    ensures clients[id := clients[id]] == clients
  {
  }

  lemma Twice(clients: Clients, id: string, c: Client, d: Client)
    ensures clients[id := c][id := d] == clients[id := d]
  {
  }

  lemma OverdueInHistory(th: Thresholds, clients: Clients, past: map<string, seq<Op>>, id: string, now: real)
    requires Tracked(th, clients, past) && id in clients
    ensures Overdue(th, clients[id], now) <==> HasLongEpisode(th, Marks(th, past[id]), now)
  {
    OverdueIffEpisode(th, past[id], Marks(th, past[id]), now);
  }

  lemma {:induction false} OverdueOfAre(th: Thresholds, clients: Clients, ids: seq<string>, now: real, id: string)
    ensures id in OverdueOf(th, clients, ids, now) <==> id in ids && id in clients && Overdue(th, clients[id], now)
  {
    if ids != [] {
      OverdueOfAre(th, clients, ids[..|ids| - 1], now, id);
    }
  }

  ghost predicate HasLongEpisode(th: Thresholds, marks: seq<Mark>, now: real) {
    exists i :: LongEpisode(th, marks, i, now)
  }

  /** The ids are those of the clients whose current episode has lasted for the timeout. */
  ghost predicate ExactlyOverdue(th: Thresholds, clients: Clients, past: map<string, seq<Op>>, now: real, ids: seq<string>)
    requires past.Keys == clients.Keys
  {
    forall id :: id in ids <==> id in clients && HasLongEpisode(th, Marks(th, past[id]), now)
  }

  lemma CandidatesExact(th: Thresholds, clients: Clients, past: map<string, seq<Op>>, order: seq<string>, now: real)
    requires Tracked(th, clients, past) && forall id :: id in clients <==> id in order
    ensures ExactlyOverdue(th, clients, past, now, OverdueOf(th, clients, order, now))
  {
    forall id ensures id in OverdueOf(th, clients, order, now) <==>
                        id in clients && HasLongEpisode(th, Marks(th, past[id]), now)
    {
      OverdueOfAre(th, clients, order, now, id);
      if id in clients {
        OverdueInHistory(th, clients, past, id, now);
      }
    }
  }
}
