/**
 The sending pipeline: the automatic run of the scheduler (engine/scheduler.py) sends each
 message by a broadcast of the TCP server sender, and waits for it.
 */
module SenderPipeline {
  import opened Splitting
  import opened Framing
  import opened LineControls
  import opened SchedulerSteps
  import opened SchedulerClaims
  import opened GenerationClaims
  import ConnectionSteps
  import B = BroadcastSteps
  import C = BroadcastClaims

  /**
   `held` is a message that waits for a ready client; `origin` says which message a log entry is;
   `headerOf` is the generation of the file whose header new clients get.
   */
  datatype Pipeline = Pipeline(play: Play, sender: B.Sender, held: bool, origin: seq<nat>, headerOf: nat)

  datatype Turn =
    | Tick
    | Send(order: seq<string>, now: real)
    | Control(call: Call)
    | Transport(step: B.Step)
    | SwapFile(records: seq<Bytes>, header: Option<Bytes>, sendHeader: bool)

  function Fresh(records: seq<Bytes>, loop: bool, sender: B.Sender): Pipeline {
    Pipeline(Begin(records, loop), sender, false, [], 0)
  }

  function DoTick(p: Pipeline): Pipeline
    requires Checked(p.play.s)
  {
    if p.held || !p.sender.work.Idle? then p
    else
      var next := Continue(p.play, DoStep);
      p.(play := next, held := |next.sent| > |p.play.sent|)
  }

  /** The held message goes out once a client is ready. */
  function DoSend(p: Pipeline, order: seq<string>, now: real): Pipeline {
    if !p.held || p.play.sent == [] || p.sender.ready == {} || !p.sender.work.Idle? || !B.IsOrder(order, p.sender.ready) then p
    else
      var i := |p.play.sent| - 1;
      var payload := p.play.sent[i].message.payload;
      p.(sender := B.DoBroadcast(p.sender, payload, order, now), held := false,
         origin := if payload == [] then p.origin else p.origin + [i])
  }

  /** No header is like an empty one: neither is sent. */
  function HeaderBytes(header: Option<Bytes>): Bytes {
    if header.None? then [] else header.value
  }

  /** A file swap (gui/controller.py): the scheduler gets the file, and at once new clients get its header. */
  function DoSwapFile(p: Pipeline, records: seq<Bytes>, header: Option<Bytes>, sendHeader: bool): Pipeline
    requires Checked(p.play.s)
  {
    p.(play := Continue(p.play, DoSwap(records, if sendHeader then header else None)),
       sender := B.Next(p.sender, B.UpdateHeader(sendHeader, HeaderBytes(header))),
       headerOf := p.play.s.generation + 1)
  }

  /** The automatic run is the only one to step the scheduler and to broadcast. */
  predicate Alone(turn: Turn) {
    (turn.Control? ==> !turn.call.DoStep? && !turn.call.DoRecords?) && (turn.Transport? ==> !turn.step.Broadcast?)
  }

  function Next(p: Pipeline, turn: Turn): (after: Pipeline)
    requires Checked(p.play.s)
    ensures Checked(after.play.s)
  {
    match turn
    case Tick => DoTick(p)
    case Send(order, now) => DoSend(p, order, now)
    case Control(call) => p.(play := Continue(p.play, call))
    case Transport(step) => p.(sender := B.Next(p.sender, step))
    case SwapFile(records, header, sendHeader) => DoSwapFile(p, records, header, sendHeader)
  }

  function Run(p: Pipeline, turns: seq<Turn>): (after: Pipeline)
    requires Checked(p.play.s)
    ensures Checked(after.play.s)
  {
    if turns == [] then p else Next(Run(p, turns[..|turns| - 1]), turns[|turns| - 1])
  }

  // ----- The log is what was played --------------------------------------

  /** The messages with something in them, in order. */
  function Carried(sent: seq<Sent>): seq<nat> {
    if sent == [] then []
    else
      var n := |sent| - 1;
      Carried(sent[..n]) + if sent[n].message.payload == [] then [] else [n]
  }

  /** How many messages have gone out. */
  function Gone(p: Pipeline): nat {
    if p.held && p.play.sent != [] then |p.play.sent| - 1 else |p.play.sent|
  }

  /** Log entry `k` is the payload of message `origin[k]`. */
  ghost predicate Tied(log: seq<Bytes>, origin: seq<nat>, sent: seq<Sent>) {
    |log| == |origin| &&
    forall k | 0 <= k < |log| :: origin[k] < |sent| && log[k] == sent[origin[k]].message.payload
  }

  ghost predicate Inv(p: Pipeline) {
    Right(p.play) && C.Inv(p.sender) && (p.held ==> p.play.sent != []) &&
    p.origin == Carried(p.play.sent[..Gone(p)]) && Tied(p.sender.log, p.origin, p.play.sent)
  }

  lemma TiedMore(log: seq<Bytes>, origin: seq<nat>, sent: seq<Sent>, more: seq<Sent>)
    requires Tied(log, origin, sent)
    ensures Tied(log, origin, sent + more)
  {
  }

  lemma {:induction false} SpreadLog(y: B.Sender, order: seq<string>, payload: Bytes, now: real)
    ensures B.Spread(y, order, payload, now).log == y.log
    decreases |order|
  {
    if order != [] && !B.Rejects(y, order[0], payload) {
      SpreadLog(B.Offered(y, order[0], payload, now), order[1..], payload, now);
    }
  }

  /** Only broadcasts extend the log. */
  lemma LogKept(y: B.Sender, step: B.Step)
    requires !step.Broadcast?
    ensures B.Next(y, step).log == y.log
  {
    if step.Resume? && y.work.Suspended? {
      SpreadLog(B.Unregister(y, y.work.slow), y.work.rest, y.work.payload, step.now);
    }
  }

  /** A call other than a step leaves what was played, and a step adds at most one message. */
  lemma ContinueAdds(p: Play, call: Call)
    requires Right(p) && !call.DoRecords?
    ensures Right(Continue(p, call))
    ensures var more := Continue(p, call).sent;
            p.sent <= more && |more| <= |p.sent| + 1 && (!call.DoStep? ==> more == p.sent)
  {
    if !call.DoStep? {
      OtherRight(p, call);
    } else if p.s.pendingSwap.Some? {
      SwapRight(p);
    } else {
      LineRight(p);
    }
  }

  lemma TickInv(p: Pipeline)
    requires Inv(p)
    ensures Inv(DoTick(p))
  {
    if !p.held && p.sender.work.Idle? {
      var next := Continue(p.play, DoStep);
      ContinueAdds(p.play, DoStep);
      TiedMore(p.sender.log, p.origin, p.play.sent, next.sent[|p.play.sent|..]);
      assert p.play.sent + next.sent[|p.play.sent|..] == next.sent;
      assert next.sent[..|p.play.sent|] == p.play.sent == p.play.sent[..Gone(p)];
    }
  }

  lemma TiedEntry(log: seq<Bytes>, origin: seq<nat>, sent: seq<Sent>, i: nat)
    requires Tied(log, origin, sent) && i < |sent|
    ensures Tied(log + [sent[i].message.payload], origin + [i], sent)
  {
  }

  lemma SendLog(y: B.Sender, payload: Bytes, order: seq<string>, now: real)
    requires y.work.Idle? && B.IsOrder(order, y.ready)
    ensures B.DoBroadcast(y, payload, order, now).log == y.log + if payload == [] then [] else [payload]
  {
    SpreadLog(y.(log := y.log + [payload]), order, payload, now);
  }

  lemma CarriedLast(sent: seq<Sent>)
    requires sent != []
    ensures var n := |sent| - 1;
            Carried(sent) == Carried(sent[..n]) + if sent[n].message.payload == [] then [] else [n]
  {
  }

  lemma SendInv(p: Pipeline, order: seq<string>, now: real)
    requires Inv(p)
    ensures Inv(DoSend(p, order, now))
  {
    var q := DoSend(p, order, now);
    if q != p {
      var i := |p.play.sent| - 1;
      var payload := p.play.sent[i].message.payload;
      C.BroadcastInv(p.sender, payload, order, now);
      SendLog(p.sender, payload, order, now);
      TiedEntry(p.sender.log, p.origin, p.play.sent, i);
      CarriedLast(p.play.sent);
      Untouched(p.play.sent);
      Untouched(p.origin);
      Untouched(p.sender.log);
    }
  }

  lemma Untouched<T>(s: seq<T>)
    ensures s[..|s|] == s && s + [] == s
  {
  }

  lemma NextInv(p: Pipeline, turn: Turn)
    requires Inv(p) && Alone(turn)
    ensures Inv(Next(p, turn))
  {
    match turn
    case Tick => TickInv(p);
    case Send(order, now) => SendInv(p, order, now);
    case Control(call) => ControlInv(p, call);
    case Transport(step) => TransportInv(p, step);
    case SwapFile(records, header, sendHeader) => SwapFileInv(p, records, header, sendHeader);
  }

  lemma SwapFileInv(p: Pipeline, records: seq<Bytes>, header: Option<Bytes>, sendHeader: bool)
    requires Inv(p)
    ensures Inv(DoSwapFile(p, records, header, sendHeader))
  {
    var call, step := DoSwap(records, if sendHeader then header else None), B.UpdateHeader(sendHeader, HeaderBytes(header));
    var q := p.(play := Continue(p.play, call));
    ControlInv(p, call);
    TransportInv(q, step);
    NotedInv(q.(sender := B.Next(q.sender, step)), p.play.s.generation + 1);
  }

  lemma NotedInv(p: Pipeline, headerOf: nat)
    requires Inv(p)
    ensures Inv(p.(headerOf := headerOf))
  {
  }

  lemma ControlInv(p: Pipeline, call: Call)
    requires Inv(p) && !call.DoStep? && !call.DoRecords?
    ensures Inv(p.(play := Continue(p.play, call)))
  {
    ContinueAdds(p.play, call);
  }

  lemma TransportInv(p: Pipeline, step: B.Step)
    requires Inv(p) && !step.Broadcast?
    ensures Inv(p.(sender := B.Next(p.sender, step)))
  {
    C.NextInv(p.sender, step);
    LogKept(p.sender, step);
    SenderInv(p, B.Next(p.sender, step));
  }

  lemma SenderInv(p: Pipeline, sender: B.Sender)
    requires Inv(p) && C.Inv(sender) && sender.log == p.sender.log
    ensures Inv(p.(sender := sender))
  {
  }

  lemma {:induction false} RunInv(p: Pipeline, turns: seq<Turn>)
    requires Inv(p) && forall turn | turn in turns :: Alone(turn)
    ensures Inv(Run(p, turns))
  {
    if turns != [] {
      var n := |turns| - 1;
      RunInv(p, turns[..n]);
      NextInv(Run(p, turns[..n]), turns[n]);
    }
  }

  // ----- The claims ------------------------------------------------------

  /** The non-empty payloads, in order. */
  function NonEmpty(sent: seq<Sent>): seq<Bytes> {
    if sent == [] then []
    else
      var n := |sent| - 1;
      NonEmpty(sent[..n]) + if sent[n].message.payload == [] then [] else [sent[n].message.payload]
  }

  lemma {:induction false} CarriedIs(sent: seq<Sent>)
    ensures |Carried(sent)| == |NonEmpty(sent)|
    ensures forall k | 0 <= k < |Carried(sent)| ::
              Carried(sent)[k] < |sent| && NonEmpty(sent)[k] == sent[Carried(sent)[k]].message.payload != []
    ensures forall j, k | 0 <= j < k < |Carried(sent)| :: Carried(sent)[j] < Carried(sent)[k]
  {
    if sent != [] {
      var n := |sent| - 1;
      CarriedIs(sent[..n]);
    }
  }

  lemma FreshInv(records: seq<Bytes>, loop: bool, th: ConnectionSteps.Thresholds, sendHeader: bool, header: Bytes)
    ensures Inv(Fresh(records, loop, B.Initial(th, sendHeader, header)))
  {
    assert Window(records, AllLines) == records;
  }

  /** Every message but a held one has been broadcast, once and in order; empty payloads are skipped. */
  lemma EveryMessageOnce(records: seq<Bytes>, loop: bool, th: ConnectionSteps.Thresholds, sendHeader: bool, header: Bytes, turns: seq<Turn>)
    requires forall turn | turn in turns :: Alone(turn)
    ensures var p := Run(Fresh(records, loop, B.Initial(th, sendHeader, header)), turns);
            p.sender.log == NonEmpty(p.play.sent[..Gone(p)])
  {
    var p := Run(Fresh(records, loop, B.Initial(th, sendHeader, header)), turns);
    FreshInv(records, loop, th, sendHeader, header);
    RunInv(Fresh(records, loop, B.Initial(th, sendHeader, header)), turns);
    CarriedIs(p.play.sent[..Gone(p)]);
  }

  lemma {:induction false} GenerationsRise(files: seq<Swap>, sent: seq<Sent>, i: nat, j: nat)
    requires forall k | 0 <= k < |sent| :: RightAt(files, sent, k)
    requires i <= j < |sent|
    ensures sent[i].message.generation <= sent[j].message.generation
    ensures i < j && sent[j].message.isHeader ==> sent[i].message.generation < sent[j].message.generation
    decreases j - i
  {
    if i < j {
      GenerationsRise(files, sent, i, j - 1);
      assert RightAt(files, sent, j);
    }
  }

  /** The message that a log entry came from. */
  function MessageOf(p: Pipeline, k: nat): (m: Message)
    requires k < |p.origin| && p.origin[k] < |p.play.sent|
  {
    p.play.sent[p.origin[k]].message
  }

  /** Entry `j` precedes entry `k` of the log as their generations do, headers first. */
  ghost predicate Ordered(p: Pipeline, j: nat, k: nat)
    requires j < |p.origin| && k < |p.origin| && p.origin[j] < |p.play.sent| && p.origin[k] < |p.play.sent|
  {
    MessageOf(p, j).generation <= MessageOf(p, k).generation &&
    (MessageOf(p, k).isHeader ==> MessageOf(p, j).generation < MessageOf(p, k).generation)
  }

  lemma LogOrdered(p: Pipeline, j: nat, k: nat)
    requires Inv(p) && j < k < |p.origin|
    ensures p.origin[j] < p.origin[k] < |p.play.sent| && Ordered(p, j, k)
  {
    CarriedIs(p.play.sent[..Gone(p)]);
    GenerationsRise(p.play.files, p.play.sent, p.origin[j], p.origin[k]);
  }

  predicate Connects(turn: Turn, id: string) {
    turn.Transport? && turn.step.Connect? && turn.step.id == id
  }

  lemma TurnKeepsJoin(p: Pipeline, turn: Turn, id: string)
    requires Checked(p.play.s)
    ensures C.JoinKept(p.sender, Next(p, turn).sender, id, Connects(turn, id))
  {
    match turn
    case Tick =>
    case Send(order, now) =>
      if p.held && p.play.sent != [] {
        C.NextKeepsJoin(p.sender, B.Broadcast(p.play.sent[|p.play.sent| - 1].message.payload, order, now), id);
      }
    case Control(_) =>
    case Transport(step) => C.NextKeepsJoin(p.sender, step, id);
    case SwapFile(_, _, _) =>
  }

  /** Turn `n` connected the client that now has this id. */
  ghost predicate JoinedAt(p: Pipeline, turns: seq<Turn>, id: string, n: nat)
    requires Checked(p.play.s)
  {
    n < |turns| && Connects(turns[n], id) && C.Joins(Run(p, turns[..n]).sender, Run(p, turns).sender, id)
  }

  lemma {:induction false} JoinPoint(p: Pipeline, turns: seq<Turn>, id: string) returns (n: nat)
    requires Checked(p.play.s) && p.sender.traces == map[] && id in Run(p, turns).sender.traces
    ensures JoinedAt(p, turns, id, n)
  {
    var m := |turns| - 1;
    TurnKeepsJoin(Run(p, turns[..m]), turns[m], id);
    if C.SameJoin(Run(p, turns[..m]).sender, Run(p, turns).sender, id) {
      n := JoinPoint(p, turns[..m], id);
      assert turns[..m][..n] == turns[..n];
    } else {
      n := m;
    }
  }

  /**
   End to end: a client receives the header of the turn that connected it, if it fits, and then a
   contiguous part of the log from that turn on.
   Each entry is a header or a current line of its generation's file, generations never go
   back, and a swap's header comes before everything else of its generation.
   */
  lemma LogPartInOrder(records: seq<Bytes>, loop: bool, th: ConnectionSteps.Thresholds, sendHeader: bool,
                       header: Bytes, turns: seq<Turn>, id: string)
    requires forall turn | turn in turns :: Alone(turn)
    ensures var p := Run(Fresh(records, loop, B.Initial(th, sendHeader, header)), turns);
            id in p.sender.traces ==>
              var t := p.sender.traces[id];
              C.InShape(p.sender, id) && Tied(p.sender.log, p.origin, p.play.sent) &&
              (forall k | t.from <= k < t.to :: RightAt(p.play.files, p.play.sent, p.origin[k])) &&
              (forall j, k | t.from <= j < k < t.to :: Ordered(p, j, k)) &&
              exists n :: JoinedAt(Fresh(records, loop, B.Initial(th, sendHeader, header)), turns, id, n)
  {
    var p := Run(Fresh(records, loop, B.Initial(th, sendHeader, header)), turns);
    FreshInv(records, loop, th, sendHeader, header);
    RunInv(Fresh(records, loop, B.Initial(th, sendHeader, header)), turns);
    if id in p.sender.traces {
      var t := p.sender.traces[id];
      assert C.InShape(p.sender, id);
      forall j, k | t.from <= j < k < t.to ensures Ordered(p, j, k) {
        LogOrdered(p, j, k);
      }
      var n := JoinPoint(Fresh(records, loop, B.Initial(th, sendHeader, header)), turns, id);
    }
  }
}
