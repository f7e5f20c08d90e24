/**
 The TCP server sender (transport/tcp_server_sender.py) as a step system: clients connect and
 are disconnected while broadcasts queue payloads for them and writers take payloads out.
 Every step is the code that one coroutine runs between two awaits.
 */
module BroadcastSteps {
  import opened Splitting
  import opened ConnectionSteps

  /** The broadcast, if one is suspended: it awaits the disconnection of `slow`. */
  datatype Work = Idle | Suspended(slow: string, rest: seq<string>, payload: Bytes)

  /** The history of one client: what it was sent first, its part of the broadcast log, what it got. */
  datatype Trace = Trace(head: seq<Bytes>, from: nat, to: nat, taken: seq<Bytes>, lost: seq<Bytes>)

  /**
   `leaving` holds one entry for every disconnection under way; `log` is every non-empty
   payload ever broadcast.
   */
  datatype Sender = Sender(
    th: Thresholds, clients: Clients, ready: set<string>, event: bool, work: Work,
    leaving: multiset<string>, sendHeader: bool, header: Bytes,
    log: seq<Bytes>, traces: map<string, Trace>)

  function Initial(th: Thresholds, sendHeader: bool, header: Bytes): Sender {
    Sender(th, map[], {}, false, Idle, multiset{}, sendHeader, header, [], map[])
  }

  datatype Step =
    | Connect(id: string, now: real)
    | Broadcast(payload: Bytes, order: seq<string>, now: real)
    | Resume(now: real)
    | Write(id: string, now: real)
    | Disconnect(id: string)
    | Disconnected(id: string)
    | UpdateHeader(sendHeader: bool, header: Bytes)

  // ----- Disconnection ---------------------------------------------------

  /** The synchronous start of a disconnection. */
  function Discard(y: Sender, id: string): Sender {
    var ready := y.ready - {id};
    y.(ready := ready, event := if ready == {} then false else y.event)
  }

  function BeginDisconnect(y: Sender, id: string): Sender {
    if id !in y.clients then y else Discard(y, id).(leaving := y.leaving + multiset{id})
  }

  /** Its end, after the client's tasks and its socket are closed. */
  function Unregister(y: Sender, id: string): Sender {
    if id !in y.clients then y
    else y.(clients := y.clients - {id},
            traces := if id in y.traces then y.traces[id := y.traces[id].(lost := y.clients[id].payloads)] else y.traces)
  }

  function EndDisconnect(y: Sender, id: string): Sender {
    if id !in y.leaving then y else Unregister(y, id).(leaving := y.leaving - multiset{id})
  }

  // ----- Connection ------------------------------------------------------

  function HeaderFor(y: Sender): seq<Bytes> {
    if y.sendHeader && y.header != [] then [y.header] else []
  }

  /** The client can be reached by broadcasts. */
  function Ready(y: Sender, id: string): Sender {
    y.(ready := y.ready + {id}, event := true)
  }

  /** The id belongs to a client, or to one that is still being disconnected. */
  predicate InUse(y: Sender, id: string) {
    id in y.clients || id in y.leaving || (y.work.Suspended? && (id == y.work.slow || id in y.work.rest))
  }

  /** A new client; what an earlier one of that id got is over. */
  function Registered(y: Sender, id: string): Sender {
    y.(clients := y.clients[id := NewClient], traces := y.traces[id := Trace([], |y.log|, |y.log|, [], [])])
  }

  function Headed(y: Sender, id: string, header: Bytes, now: real): Sender
    requires id in y.traces
  {
    y.(clients := Enqueue(y.th, y.clients, id, header, now).0,
       traces := y.traces[id := y.traces[id].(head := [header])])
  }

  /** The id's client, if it has one, is replaced. */
  function Connected(y: Sender, id: string, now: real): Sender {
    var joined := Registered(y, id);
    if HeaderFor(y) == [] then Ready(joined, id)
    else if Enqueue(y.th, joined.clients, id, y.header, now).1 != Accepted then BeginDisconnect(joined, id)
    else Ready(Headed(joined, id, y.header, now), id)
  }

  /** No id connects that is in use. */
  function DoConnect(y: Sender, id: string, now: real): Sender {
    if InUse(y, id) then y else Connected(y, id, now)
  }

  // ----- Broadcast -------------------------------------------------------

  /** Some order of the ready set. */
  predicate IsOrder(order: seq<string>, ready: set<string>) {
    (set id | id in order) == ready && Distinct(order)
  }

  predicate Distinct(ids: seq<string>) {
    forall i, j | 0 <= i < j < |ids| :: ids[i] != ids[j]
  }

  /** A payload offered to one client. */
  function Offered(y: Sender, id: string, payload: Bytes, now: real): Sender {
    var (clients, verdict) := Enqueue(y.th, y.clients, id, payload, now);
    if verdict != Accepted then y
    else y.(clients := clients,
            traces := if id in y.traces then y.traces[id := y.traces[id].(to := y.traces[id].to + 1)] else y.traces)
  }

  predicate Rejects(y: Sender, id: string, payload: Bytes) {
    id in y.clients && !ConnectionSteps.Fits(y.th, y.clients[id], payload)
  }

  /** The broadcast loop up to the first client whose queue is full. */
  function Spread(y: Sender, order: seq<string>, payload: Bytes, now: real): Sender
    decreases |order|
  {
    if order == [] then y.(work := Idle)
    else if Rejects(y, order[0], payload) then Discard(y, order[0]).(work := Suspended(order[0], order[1..], payload))
    else Spread(Offered(y, order[0], payload, now), order[1..], payload, now)
  }

  function DoBroadcast(y: Sender, payload: Bytes, order: seq<string>, now: real): Sender {
    if payload == [] || !y.work.Idle? || !IsOrder(order, y.ready) then y
    else Spread(y.(log := y.log + [payload]), order, payload, now)
  }

  function DoResume(y: Sender, now: real): Sender {
    if y.work.Idle? then y else Spread(Unregister(y, y.work.slow), y.work.rest, y.work.payload, now)
  }

  /** A writer takes the next payload of its client. */
  function DoWrite(y: Sender, id: string, now: real): Sender {
    var (clients, payload) := Pop(y.th, y.clients, id, now);
    if payload.None? || id !in y.traces then y
    else y.(clients := clients, traces := y.traces[id := y.traces[id].(taken := y.traces[id].taken + [payload.value])])
  }

  function Next(y: Sender, step: Step): Sender {
    match step
    case Connect(id, now) => DoConnect(y, id, now)
    case Broadcast(payload, order, now) => DoBroadcast(y, payload, order, now)
    case Resume(now) => DoResume(y, now)
    case Write(id, now) => DoWrite(y, id, now)
    case Disconnect(id) => BeginDisconnect(y, id)
    case Disconnected(id) => EndDisconnect(y, id)
    case UpdateHeader(sendHeader, header) => y.(sendHeader := sendHeader, header := header)
  }

  function Run(y: Sender, steps: seq<Step>): Sender {
    if steps == [] then y else Next(Run(y, steps[..|steps| - 1]), steps[|steps| - 1])
  }
}
