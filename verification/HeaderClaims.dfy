/**
 The header that a client gets when it connects, against the generations of what it gets from
 the log: when its whole stream never goes back to an older file.
 */
module HeaderClaims {
  import opened Splitting
  import opened Framing
  import opened LineControls
  import opened SchedulerSteps
  import opened GenerationClaims
  import opened SenderPipeline
  import S = SchedulerClaims
  import opened ConnectionSteps
  import B = BroadcastSteps
  import C = BroadcastClaims

  /** A file is swapped and its header announced in one turn, and never one without the other. */
  predicate Paired(turn: Turn) {
    Alone(turn) && !(turn.Control? && turn.call.DoSwap?) && !(turn.Transport? && turn.step.UpdateHeader?)
  }

  /** The generation of the file that the next step plays from. */
  function Due(s: Scheduler): nat {
    s.generation + if s.pendingSwap.Some? then 1 else 0
  }

  /** The header that came with that file. */
  function DueHeader(play: Play): Option<Bytes>
    requires play.s.generation < |play.files|
  {
    if play.s.pendingSwap.Some? then play.s.pendingSwap.value.header else play.files[play.s.generation].header
  }

  function Shown(header: Option<Bytes>): seq<Bytes> {
    if header.Some? && header.value != [] then [header.value] else []
  }

  lemma StepDue(s: Scheduler)
    requires Checked(s)
    ensures var (t, m) := Step(s);
            t.generation == Due(t) == Due(s) && (m.Some? ==> m.value.generation == Due(s))
  {
  }

  /** A held message is the last one and of the current generation, and no broadcast is under way. */
  ghost predicate HeldNow(p: Pipeline) {
    p.sender.work.Idle? && p.play.sent != [] && LastGeneration(p.play.sent) == p.play.s.generation
  }

  /** New clients get the header of the file that the next step plays from. */
  ghost predicate Matched(p: Pipeline)
    requires Right(p.play)
  {
    p.headerOf == Due(p.play.s) && (p.held ==> HeldNow(p)) &&
    (p.headerOf > 0 ==> B.HeaderFor(p.sender) == Shown(DueHeader(p.play)))
  }

  lemma {:induction false} SpreadHeader(y: B.Sender, order: seq<string>, payload: Bytes, now: real)
    ensures B.HeaderFor(B.Spread(y, order, payload, now)) == B.HeaderFor(y)
    decreases |order|
  {
    if order != [] && !B.Rejects(y, order[0], payload) {
      SpreadHeader(B.Offered(y, order[0], payload, now), order[1..], payload, now);
    }
  }

  lemma StepHeader(y: B.Sender, step: B.Step)
    requires !step.UpdateHeader? && !step.Broadcast?
    ensures B.HeaderFor(B.Next(y, step)) == B.HeaderFor(y)
    ensures y.work.Idle? ==> B.Next(y, step).work.Idle?
  {
    if step.Resume? && y.work.Suspended? {
      SpreadHeader(B.Unregister(y, y.work.slow), y.work.rest, y.work.payload, step.now);
    }
  }

  lemma TickMatched(p: Pipeline)
    requires Inv(p) && Matched(p)
    ensures Right(DoTick(p).play) && Matched(DoTick(p))
  {
    TickInv(p);
    StepDue(p.play.s);
  }

  lemma SendMatched(p: Pipeline, order: seq<string>, now: real)
    requires Inv(p) && Matched(p)
    ensures Right(DoSend(p, order, now).play) && Matched(DoSend(p, order, now))
  {
    var q := DoSend(p, order, now);
    if q != p {
      var payload := p.play.sent[|p.play.sent| - 1].message.payload;
      SpreadHeader(p.sender.(log := p.sender.log + [payload]), order, payload, now);
    }
  }

  lemma ControlMatched(p: Pipeline, call: S.Call)
    requires Inv(p) && Matched(p) && !call.DoStep? && !call.DoRecords? && !call.DoSwap?
    ensures var q := p.(play := Continue(p.play, call));
            Right(q.play) && Matched(q)
  {
    ContinueAdds(p.play, call);
  }

  lemma SwapFileMatched(p: Pipeline, records: seq<Bytes>, header: Option<Bytes>, sendHeader: bool)
    requires Inv(p) && Matched(p)
    ensures var q := DoSwapFile(p, records, header, sendHeader);
            Right(q.play) && Matched(q)
  {
    ContinueAdds(p.play, S.DoSwap(records, if sendHeader then header else None));
  }

  lemma NextMatched(p: Pipeline, turn: Turn)
    requires Inv(p) && Matched(p) && Paired(turn)
    ensures Inv(Next(p, turn)) && Matched(Next(p, turn))
  {
    NextInv(p, turn);
    match turn
    case Tick => TickMatched(p);
    case Send(order, now) => SendMatched(p, order, now);
    case Control(call) => ControlMatched(p, call);
    case Transport(step) => StepHeader(p.sender, step);
    case SwapFile(records, header, sendHeader) => SwapFileMatched(p, records, header, sendHeader);
  }

  lemma {:induction false} RunMatched(p: Pipeline, turns: seq<Turn>)
    requires Inv(p) && Matched(p) && forall turn | turn in turns :: Paired(turn)
    ensures Inv(Run(p, turns)) && Matched(Run(p, turns))
  {
    if turns != [] {
      var n := |turns| - 1;
      RunMatched(p, turns[..n]);
      NextMatched(Run(p, turns[..n]), turns[n]);
    }
  }

  // ----- What is played from a state on ----------------------------------

  /** What is played after `q` is of the generation that was due at `q`, or of a later one. */
  ghost predicate Follows(q: Pipeline, p: Pipeline) {
    q.play.sent <= p.play.sent && Due(q.play.s) <= Due(p.play.s) && Gone(q) <= Gone(p) &&
    forall i | |q.play.sent| <= i < |p.play.sent| :: Due(q.play.s) <= p.play.sent[i].message.generation
  }

  lemma TickFollows(q: Pipeline, p: Pipeline)
    requires Inv(p) && Follows(q, p)
    ensures Follows(q, DoTick(p))
  {
    StepDue(p.play.s);
  }

  /** Other turns play nothing. */
  lemma QuietFollows(q: Pipeline, p: Pipeline, z: Pipeline)
    requires Follows(q, p) && z.play.sent == p.play.sent && Due(p.play.s) <= Due(z.play.s) && Gone(p) <= Gone(z)
    ensures Follows(q, z)
  {
  }

  lemma ControlDue(p: Pipeline, call: S.Call)
    requires Checked(p.play.s) && !call.DoStep?
    ensures var play := Continue(p.play, call);
            play.sent == p.play.sent && Due(p.play.s) <= Due(play.s)
  {
  }

  lemma NextFollows(q: Pipeline, p: Pipeline, turn: Turn)
    requires Inv(p) && Follows(q, p) && Alone(turn)
    ensures Follows(q, Next(p, turn))
  {
    if turn.Tick? {
      TickFollows(q, p);
    } else {
      if turn.Control? {
        ControlDue(p, turn.call);
      } else if turn.SwapFile? {
        ControlDue(p, S.DoSwap(turn.records, if turn.sendHeader then turn.header else None));
      }
      QuietFollows(q, p, Next(p, turn));
    }
  }

  lemma {:induction false} RunFollows(q: Pipeline, p: Pipeline, turns: seq<Turn>)
    requires Inv(p) && Follows(q, p) && forall turn | turn in turns :: Alone(turn)
    ensures Follows(q, Run(p, turns))
  {
    if turns != [] {
      var n := |turns| - 1;
      RunFollows(q, p, turns[..n]);
      RunInv(p, turns[..n]);
      NextFollows(q, Run(p, turns[..n]), turns[n]);
    }
  }

  lemma {:induction false} RunAppend(p: Pipeline, turns: seq<Turn>, more: seq<Turn>)
    requires Checked(p.play.s)
    ensures Run(p, turns + more) == Run(Run(p, turns), more)
  {
    if more == [] {
      EmptyRight(turns);
    } else {
      var n := |more| - 1;
      RunAppend(p, turns, more[..n]);
      LastOfBoth(turns, more);
    }
  }

  lemma LastOfBoth<T>(a: seq<T>, b: seq<T>)
    requires b != []
    ensures (a + b)[..|a + b| - 1] == a + b[..|b| - 1] && (a + b)[|a + b| - 1] == b[|b| - 1]
  {
  }

  /** What is played between two points of a run. */
  lemma RunSplit(p: Pipeline, turns: seq<Turn>, n: nat)
    requires Inv(p) && n <= |turns| && forall turn | turn in turns :: Alone(turn)
    ensures Follows(Run(p, turns[..n]), Run(p, turns))
  {
    var first, more := turns[..n], turns[n..];
    Halves(turns, n);
    RunInv(p, first);
    RunFollows(Run(p, first), Run(p, first), more);
    RunAppend(p, first, more);
  }

  lemma Halves<T>(s: seq<T>, n: nat)
    requires n <= |s|
    ensures s == s[..n] + s[n..]
    ensures forall x | x in s[..n] || x in s[n..] :: x in s
  {
  }

  /** Entries for the first messages come first. */
  lemma {:induction false} CarriedSplit(sent: seq<Sent>, n: nat)
    requires n <= |sent|
    ensures Carried(sent[..n]) <= Carried(sent)
    ensures forall k | |Carried(sent[..n])| <= k < |Carried(sent)| :: n <= Carried(sent)[k]
  {
    if n == |sent| {
      assert sent[..n] == sent;
    } else {
      var m := |sent| - 1;
      assert sent[..m][..n] == sent[..n];
      CarriedSplit(sent[..m], n);
    }
  }

  lemma PrefixSlices<T>(a: seq<T>, b: seq<T>, n: nat, m: nat)
    requires a <= b && n <= |a| && n <= m <= |b|
    ensures b[..m][..n] == a[..n]
  {
  }

  /** A log entry added after `q` is a message that had not gone out at `q`. */
  lemma EntryAfter(q: Pipeline, p: Pipeline, k: nat)
    requires Inv(q) && Inv(p) && Follows(q, p) && |q.sender.log| <= k < |p.origin|
    ensures Gone(q) <= p.origin[k] < |p.play.sent|
  {
    PrefixSlices(q.play.sent, p.play.sent, Gone(q), Gone(p));
    CarriedSplit(p.play.sent[..Gone(p)], Gone(q));
    CarriedIs(p.play.sent[..Gone(p)]);
  }

  // ----- A client's whole stream -----------------------------------------

  ghost predicate Legible(p: Pipeline, id: string) {
    id in p.sender.traces &&
    var t := p.sender.traces[id];
    t.from <= t.to <= |p.origin| && forall k | t.from <= k < t.to :: p.origin[k] < |p.play.sent|
  }

  /** How much was ever queued for a client: its header and its part of the log. */
  function Entries(p: Pipeline, id: string): nat
    requires Legible(p, id)
  {
    var t := p.sender.traces[id];
    |t.head| + (t.to - t.from)
  }

  /** The generation of the `i`-th entry of a client's stream, its header being of generation `headerOf`. */
  function GenerationAt(p: Pipeline, id: string, headerOf: nat, i: nat): nat
    requires Legible(p, id) && i < Entries(p, id)
  {
    var t := p.sender.traces[id];
    if i < |t.head| then headerOf else MessageOf(p, t.from + (i - |t.head|)).generation
  }

  /** The whole stream never goes back to an older file. */
  ghost predicate Rising(p: Pipeline, id: string, headerOf: nat)
    requires Legible(p, id)
  {
    forall i, j | 0 <= i < j < Entries(p, id) :: GenerationAt(p, id, headerOf, i) <= GenerationAt(p, id, headerOf, j)
  }

  /** The log part rises, and the header is not of a later generation than anything in it. */
  ghost predicate PartsRise(p: Pipeline, id: string, headerOf: nat)
    requires Legible(p, id)
  {
    var t := p.sender.traces[id];
    (forall j, k | t.from <= j < k < t.to :: MessageOf(p, j).generation <= MessageOf(p, k).generation) &&
    (t.head != [] ==> forall k | t.from <= k < t.to :: headerOf <= MessageOf(p, k).generation)
  }

  lemma PartsMakeRising(p: Pipeline, id: string, headerOf: nat)
    requires Legible(p, id) && PartsRise(p, id, headerOf)
    ensures Rising(p, id, headerOf)
  {
  }

  /**
   The client connected, at `q`, while a swap was pending and a message of the old file was held;
   it got the new header and then that message.
   */
  ghost predicate HeldBack(q: Pipeline, p: Pipeline, id: string)
    requires id in p.sender.traces
  {
    var t := p.sender.traces[id];
    t.head != [] && t.from < t.to <= |p.origin| && q.play.s.pendingSwap.Some? && q.held &&
    p.origin[t.from] == |q.play.sent| - 1
  }

  lemma EntryGeneration(q: Pipeline, p: Pipeline, k: nat)
    requires Inv(q) && Matched(q) && Inv(p) && Follows(q, p) && |q.sender.log| <= k < |p.origin|
    ensures p.origin[k] < |p.play.sent|
    ensures if q.held && p.origin[k] == |q.play.sent| - 1 then MessageOf(p, k).generation == q.play.s.generation
            else q.headerOf <= MessageOf(p, k).generation
  {
    EntryAfter(q, p, k);
  }

  /** Only a held message of the old file makes the stream go back, and only right behind the header. */
  lemma StreamRises(q: Pipeline, p: Pipeline, id: string)
    requires Inv(q) && Matched(q) && Inv(p) && Follows(q, p)
    requires id in p.sender.traces && p.sender.traces[id].from == |q.sender.log| && |p.sender.traces[id].head| <= 1
    ensures Legible(p, id) && (Rising(p, id, q.headerOf) <==> !HeldBack(q, p, id))
  {
    StreamLegible(q, p, id);
    if HeldBack(q, p, id) {
      EntryGeneration(q, p, p.sender.traces[id].from);
      assert GenerationAt(p, id, q.headerOf, 0) > GenerationAt(p, id, q.headerOf, 1);
    } else {
      StreamParts(q, p, id);
      PartsMakeRising(p, id, q.headerOf);
    }
  }

  lemma StreamParts(q: Pipeline, p: Pipeline, id: string)
    requires Inv(q) && Matched(q) && Inv(p) && Follows(q, p) && Legible(p, id)
    requires p.sender.traces[id].from == |q.sender.log| && !HeldBack(q, p, id)
    ensures PartsRise(p, id, q.headerOf)
  {
    var t := p.sender.traces[id];
    forall j, k | t.from <= j < k < t.to ensures MessageOf(p, j).generation <= MessageOf(p, k).generation {
      LogOrdered(p, j, k);
    }
    if t.head != [] {
      forall k | t.from <= k < t.to ensures q.headerOf <= MessageOf(p, k).generation {
        HeaderFirst(q, p, id, k);
      }
    }
  }

  lemma StreamLegible(q: Pipeline, p: Pipeline, id: string)
    requires Inv(q) && Inv(p) && Follows(q, p)
    requires id in p.sender.traces && p.sender.traces[id].from == |q.sender.log|
    ensures Legible(p, id)
  {
    var t := p.sender.traces[id];
    assert C.InShape(p.sender, id);
    forall k | t.from <= k < t.to ensures p.origin[k] < |p.play.sent| {
      EntryAfter(q, p, k);
    }
  }

  /** The header is not of a later generation than an entry of the log. */
  lemma HeaderFirst(q: Pipeline, p: Pipeline, id: string, k: nat)
    requires Inv(q) && Matched(q) && Inv(p) && Follows(q, p)
    requires id in p.sender.traces && p.sender.traces[id].from == |q.sender.log| && p.sender.traces[id].head != []
    requires p.sender.traces[id].from <= k < p.sender.traces[id].to <= |p.origin| && !HeldBack(q, p, id)
    ensures p.origin[k] < |p.play.sent| && q.headerOf <= MessageOf(p, k).generation
  {
    var from := p.sender.traces[id].from;
    if from < k {
      LaterIsNew(q, p, from, k);
      EntryGeneration(q, p, k);
      assert p.origin[k] != |q.play.sent| - 1;
    } else {
      EntryGeneration(q, p, from);
      assert q.play.s.pendingSwap.None? ==> q.headerOf == q.play.s.generation;
    }
  }

  /** A second entry after `q` is not the message that was held there. */
  lemma LaterIsNew(q: Pipeline, p: Pipeline, j: nat, k: nat)
    requires Inv(q) && Inv(p) && Follows(q, p) && |q.sender.log| <= j < k < |p.origin|
    ensures |q.play.sent| <= p.origin[k]
  {
    EntryAfter(q, p, j);
    LogOrdered(p, j, k);
  }

  /** `id` joined at turn `n`; its header is the one then in force, and its stream rises unless a message was held. */
  ghost predicate StreamIs(p0: Pipeline, turns: seq<Turn>, id: string, n: nat)
    requires Checked(p0.play.s)
  {
    JoinedAt(p0, turns, id, n) &&
    var q, p := Run(p0, turns[..n]), Run(p0, turns);
    Right(q.play) && Legible(p, id) && HeaderOfDue(q, p.sender.traces[id].head) &&
    (Rising(p, id, q.headerOf) <==> !HeldBack(q, p, id))
  }

  /** The header belongs to the file that is due; that of the first file is part of the settings. */
  ghost predicate HeaderOfDue(q: Pipeline, head: seq<Bytes>)
    requires Right(q.play)
  {
    q.headerOf == Due(q.play.s) && (q.headerOf > 0 && head != [] ==> head == Shown(DueHeader(q.play)))
  }

  lemma FreshMatched(records: seq<Bytes>, loop: bool, th: Thresholds, sendHeader: bool, header: Bytes)
    ensures var p := Fresh(records, loop, B.Initial(th, sendHeader, header));
            Inv(p) && Matched(p)
  {
    FreshInv(records, loop, th, sendHeader, header);
  }

  lemma JoinedStream(p0: Pipeline, turns: seq<Turn>, id: string, n: nat)
    requires Inv(p0) && Matched(p0) && JoinedAt(p0, turns, id, n) && forall turn | turn in turns :: Paired(turn)
    ensures StreamIs(p0, turns, id, n)
  {
    Halves(turns, n);
    RunMatched(p0, turns[..n]);
    RunInv(p0, turns);
    RunSplit(p0, turns, n);
    StreamRises(Run(p0, turns[..n]), Run(p0, turns), id);
  }

  /**
   End to end: a client gets the header in force when it connects, if it fits, and then a contiguous
   part of the log, each entry a header or a current line of its generation's file.  Its whole stream
   never goes back to an older file, unless a message of the old file was held for want of a client
   while a swap was pending: then that one message follows the new header.
   */
  lemma ClientSeesGenerationsInOrder(records: seq<Bytes>, loop: bool, th: Thresholds, sendHeader: bool, header: Bytes,
                                     turns: seq<Turn>, id: string)
    requires forall turn | turn in turns :: Paired(turn)
    ensures var p0 := Fresh(records, loop, B.Initial(th, sendHeader, header));
            var p := Run(p0, turns);
            id in p.sender.traces ==>
              var t := p.sender.traces[id];
              C.InShape(p.sender, id) && Tied(p.sender.log, p.origin, p.play.sent) &&
              (forall k | t.from <= k < t.to :: RightAt(p.play.files, p.play.sent, p.origin[k])) &&
              exists n :: StreamIs(p0, turns, id, n)
  {
    var p0 := Fresh(records, loop, B.Initial(th, sendHeader, header));
    FreshMatched(records, loop, th, sendHeader, header);
    RunInv(p0, turns);
    var p := Run(p0, turns);
    if id in p.sender.traces {
      assert C.InShape(p.sender, id);
      var n := JoinPoint(p0, turns, id);
      JoinedStream(p0, turns, id, n);
    }
  }

  // ----- When a stream can go back ---------------------------------------

  /** The turns go on without connecting the id anew. */
  ghost predicate GoesOn(turns: seq<Turn>, id: string) {
    forall turn | turn in turns :: Paired(turn) && !Connects(turn, id)
  }

  function Joined(q: Pipeline, id: string, now: real): Pipeline {
    q.(sender := B.Next(q.sender, B.Connect(id, now)))
  }

  /** These turns make the stream of a client that connects at `q` go back. */
  ghost predicate BackAfter(q: Pipeline, id: string, now: real, turns: seq<Turn>)
    requires Checked(q.play.s)
  {
    var p := Run(Joined(q, id, now), turns);
    GoesOn(turns, id) && Legible(p, id) && !Rising(p, id, q.headerOf)
  }

  ghost predicate CanGoBack(q: Pipeline, id: string, now: real)
    requires Checked(q.play.s)
  {
    exists turns :: BackAfter(q, id, now, turns)
  }

  /**
   A swap is pending, its header will be sent, and a message is held that is not empty and fits
   into an empty queue.
   */
  predicate OldMessageHeld(q: Pipeline) {
    q.play.s.pendingSwap.Some? && C.HeaderSent(q.sender) != [] && q.held && q.play.sent != [] &&
    var payload := q.play.sent[|q.play.sent| - 1].message.payload;
    payload != [] && |payload| <= q.sender.th.hardCap
  }

  lemma TurnCapped(p: Pipeline, turn: Turn)
    requires Checked(p.play.s) && C.Capped(p.sender)
    ensures C.Capped(Next(p, turn).sender) && Next(p, turn).sender.th == p.sender.th
  {
    match turn
    case Tick =>
    case Send(order, now) =>
      if p.play.sent != [] {
        C.CappedNext(p.sender, B.Broadcast(p.play.sent[|p.play.sent| - 1].message.payload, order, now));
      }
    case Control(_) =>
    case Transport(step) => C.CappedNext(p.sender, step);
    case SwapFile(_, header, sendHeader) => C.CappedNext(p.sender, B.UpdateHeader(sendHeader, HeaderBytes(header)));
  }

  lemma {:induction false} RunCapped(p: Pipeline, turns: seq<Turn>)
    requires Checked(p.play.s) && C.Capped(p.sender)
    ensures C.Capped(Run(p, turns).sender) && Run(p, turns).sender.th == p.sender.th
  {
    if turns != [] {
      var n := |turns| - 1;
      RunCapped(p, turns[..n]);
      TurnCapped(Run(p, turns[..n]), turns[n]);
    }
  }

  lemma {:induction false} RunKeepsJoin(p: Pipeline, turns: seq<Turn>, id: string)
    requires Checked(p.play.s) && GoesOn(turns, id) && id in p.sender.traces && id in Run(p, turns).sender.traces
    ensures C.SameJoin(p.sender, Run(p, turns).sender, id)
  {
    if turns != [] {
      var n := |turns| - 1;
      TurnKeepsJoin(Run(p, turns[..n]), turns[n], id);
      RunKeepsJoin(p, turns[..n], id);
    }
  }

  lemma JoinedIs(q: Pipeline, id: string, now: real)
    requires Inv(q) && Matched(q) && !B.InUse(q.sender, id)
    ensures var r := Joined(q, id, now);
            Inv(r) && Follows(q, r) && C.Joins(q.sender, r.sender, id)
  {
    TransportInv(q, B.Connect(id, now));
    C.ConnectJoins(q.sender, id, now);
    QuietFollows(q, q, Joined(q, id, now));
  }

  lemma OnlyHeld(q: Pipeline, id: string, now: real, turns: seq<Turn>)
    requires Inv(q) && Matched(q) && C.Capped(q.sender) && !B.InUse(q.sender, id) && BackAfter(q, id, now, turns)
    ensures OldMessageHeld(q)
  {
    var r := Joined(q, id, now);
    var p := Run(r, turns);
    JoinedIs(q, id, now);
    C.CappedNext(q.sender, B.Connect(id, now));
    RunInv(r, turns);
    RunCapped(r, turns);
    RunFollows(q, r, turns);
    RunKeepsJoin(r, turns, id);
    StreamRises(q, p, id);
    HeldFits(q, p, id);
  }

  lemma HeldFits(q: Pipeline, p: Pipeline, id: string)
    requires Inv(p) && C.Capped(p.sender) && Right(q.play) && Matched(q) && q.play.sent <= p.play.sent
    requires id in p.sender.traces && HeldBack(q, p, id)
    ensures var payload := q.play.sent[|q.play.sent| - 1].message.payload;
            payload != [] && |payload| <= p.sender.th.hardCap
  {
    var from := p.sender.traces[id].from;
    assert C.InShape(p.sender, id);
    C.EntryCapped(p.sender, id, from);
    CarriedIs(p.play.sent[..Gone(p)]);
  }

  lemma RunTwo(p: Pipeline, a: Turn, b: Turn)
    requires Checked(p.play.s)
    ensures Run(p, [a, b]) == Next(Next(p, a), b)
  {
    assert [a, b][..1] == [a] && [a][..0] == [];
    assert Run(p, [a]) == Next(Run(p, []), a);
  }

  /** The client writes its header, and then the held message is broadcast, to it first. */
  function Behind(id: string, order: seq<string>, now: real): seq<Turn> {
    [Transport(B.Write(id, now)), Send(order, now)]
  }

  lemma BehindIs(r: Pipeline, id: string, order: seq<string>, now: real)
    requires Checked(r.play.s)
    ensures GoesOn(Behind(id, order, now), id)
    ensures Run(r, Behind(id, order, now)) == DoSend(r.(sender := B.DoWrite(r.sender, id, now)), order, now)
  {
    RunTwo(r, Transport(B.Write(id, now)), Send(order, now));
  }

  /** After these two turns the held message is the client's part of the log. */
  lemma BehindReaches(q: Pipeline, id: string, now: real) returns (order: seq<string>)
    requires Checked(q.play.s) && q.sender.work.Idle? && !B.InUse(q.sender, id) && OldMessageHeld(q)
    ensures var p := Run(Joined(q, id, now), Behind(id, order, now));
            C.Joins(q.sender, p.sender, id) && p.sender.traces[id].to == |q.sender.log| + 1 &&
            p.origin == q.origin + [|q.play.sent| - 1]
  {
    var r := Joined(q, id, now);
    order := C.ReachFirst(q.sender, id, q.play.sent[|q.play.sent| - 1].message.payload, now);
    SendIs(r.(sender := B.DoWrite(r.sender, id, now)), order, now);
    BehindIs(r, id, order, now);
  }

  /** A held message that is not empty goes out once a client is ready. */
  lemma SendIs(p: Pipeline, order: seq<string>, now: real)
    requires p.held && p.play.sent != [] && p.sender.work.Idle? && p.sender.ready != {} && B.IsOrder(order, p.sender.ready)
    requires p.play.sent[|p.play.sent| - 1].message.payload != []
    ensures var i := |p.play.sent| - 1;
            DoSend(p, order, now) == p.(sender := B.DoBroadcast(p.sender, p.play.sent[i].message.payload, order, now),
                                        held := false, origin := p.origin + [i])
  {
  }

  lemma HeldGoesBack(q: Pipeline, id: string, now: real)
    requires Inv(q) && Matched(q) && !B.InUse(q.sender, id) && OldMessageHeld(q)
    ensures CanGoBack(q, id, now)
  {
    var order := BehindReaches(q, id, now);
    var r, turns := Joined(q, id, now), Behind(id, order, now);
    var p := Run(r, turns);
    JoinedIs(q, id, now);
    BehindIs(r, id, order, now);
    RunInv(r, turns);
    RunFollows(q, r, turns);
    StreamRises(q, p, id);
    assert p.origin[|q.origin|] == |q.play.sent| - 1;
    assert BackAfter(q, id, now, turns);
  }

  /**
   Exactly when the stream of a client that connects at a reachable state goes back to an older
   file in some continuation: a swap is pending, the new header is sent, and a message of the old
   file is held that is not empty and within the cap.
   */
  lemma GoesBackIffHeld(records: seq<Bytes>, loop: bool, th: Thresholds, sendHeader: bool, header: Bytes, turns: seq<Turn>,
                        id: string, now: real)
    requires forall turn | turn in turns :: Paired(turn)
    ensures var q := Run(Fresh(records, loop, B.Initial(th, sendHeader, header)), turns);
            !B.InUse(q.sender, id) ==> (CanGoBack(q, id, now) <==> OldMessageHeld(q))
  {
    var p0 := Fresh(records, loop, B.Initial(th, sendHeader, header));
    var q := Run(p0, turns);
    FreshMatched(records, loop, th, sendHeader, header);
    RunMatched(p0, turns);
    RunCapped(p0, turns);
    if !B.InUse(q.sender, id) {
      if OldMessageHeld(q) {
        HeldGoesBack(q, id, now);
      }
      if CanGoBack(q, id, now) {
        var more :| BackAfter(q, id, now, more);
        OnlyHeld(q, id, now, more);
      }
    }
  }

  // ----- A run that goes back, and the header twice ----------------------

  /** A line waits for a client while the file is swapped. */
  function WaitThenSwap(before: Bytes, after: Bytes, next: Bytes): seq<Turn> {
    [Tick, SwapFile([after], Some(next), true)]
  }

  lemma WaitThenSwapIs(before: Bytes, after: Bytes, next: Bytes, loop: bool, th: Thresholds, sendHeader: bool, header: Bytes)
    ensures var q := Run(Fresh([before], loop, B.Initial(th, sendHeader, header)), WaitThenSwap(before, after, next));
            q.held && q.play.s.pendingSwap.Some? && q.headerOf == 1 && q.origin == [] && q.sender == B.Initial(th, true, next) &&
            q.play.sent == [Sent(Message(before, 0, false, 1), AllLines)]
  {
    var p, turns := Fresh([before], loop, B.Initial(th, sendHeader, header)), WaitThenSwap(before, after, next);
    RunTwo(p, turns[0], turns[1]);
    assert [] + [Sent(Message(before, 0, false, 1), AllLines)] == [Sent(Message(before, 0, false, 1), AllLines)];
  }

  lemma FirstClient(th: Thresholds, next: Bytes, before: Bytes, id: string, now: real)
    requires before != [] && next != [] && |next| + |before| <= th.hardCap
    ensures var y := B.DoConnect(B.Initial(th, true, next), id, now);
            y.work.Idle? && y.ready == {id} && B.IsOrder([id], y.ready) &&
            var z := B.DoBroadcast(y, before, [id], now);
            id in z.clients && z.clients[id].payloads == [next, before]
  {
    var y := B.DoConnect(B.Initial(th, true, next), id, now);
    C.ConnectJoins(B.Initial(th, true, next), id, now);
    FirstReady(B.Initial(th, true, next), id, now);
    OneOrder(id);
    C.SpreadOne(y.(log := y.log + [before]), id, before, now);
  }

  lemma FirstReady(y: B.Sender, id: string, now: real)
    requires !B.InUse(y, id) && y.ready == {} && C.HeaderSent(y) != []
    ensures B.DoConnect(y, id, now).ready == {id}
  {
  }

  lemma OneOrder(id: string)
    ensures B.IsOrder([id], {id})
  {
  }

  /**
   A message waits for a client, the file is swapped, and a client connects: it gets the header of
   the new file, and then the line of the old one.
   */
  lemma OldAfterNew(before: Bytes, after: Bytes, next: Bytes, loop: bool, th: Thresholds, sendHeader: bool, header: Bytes,
                    id: string, now: real)
    requires before != [] && next != [] && |next| + |before| <= th.hardCap
    ensures var p0 := Fresh([before], loop, B.Initial(th, sendHeader, header));
            var q := Run(p0, WaitThenSwap(before, after, next));
            var p := Run(p0, WaitThenSwap(before, after, next) + [Transport(B.Connect(id, now)), Send([id], now)]);
            OldMessageHeld(q) && q.headerOf == 1 &&
            id in p.sender.clients && p.sender.clients[id].payloads == [next, before] &&
            p.origin == [0] && p.play.sent == [Sent(Message(before, 0, false, 1), AllLines)]
  {
    var p0, turns := Fresh([before], loop, B.Initial(th, sendHeader, header)), [Transport(B.Connect(id, now)), Send([id], now)];
    var q := Run(p0, WaitThenSwap(before, after, next));
    WaitThenSwapIs(before, after, next, loop, th, sendHeader, header);
    RunAppend(p0, WaitThenSwap(before, after, next), turns);
    RunTwo(q, Transport(B.Connect(id, now)), Send([id], now));
    FirstGets(q, before, next, id, now);
  }

  lemma FirstGets(q: Pipeline, before: Bytes, next: Bytes, id: string, now: real)
    requires q.held && q.origin == [] && q.play.sent == [Sent(Message(before, 0, false, 1), AllLines)]
    requires q.sender == B.Initial(q.sender.th, true, next)
    requires before != [] && next != [] && |next| + |before| <= q.sender.th.hardCap
    ensures var p := DoSend(Joined(q, id, now), [id], now);
            id in p.sender.clients && p.sender.clients[id].payloads == [next, before] &&
            p.origin == [0] && p.play.sent == q.play.sent
  {
    FirstClient(q.sender.th, next, before, id, now);
    SendIs(Joined(q, id, now), [id], now);
  }

  /** The header of a pending swap has not been played since `q`, or was the first message played. */
  ghost predicate AwaitsHeader(q: Pipeline, p: Pipeline, header: Bytes) {
    |q.play.sent| <= |p.play.sent| && q.play.sent <= p.play.sent &&
    if |p.play.sent| == |q.play.sent| then
      !p.held && p.play.s.generation == q.play.s.generation &&
      p.play.s.pendingSwap.Some? && p.play.s.pendingSwap.value.header == Some(header)
    else p.play.sent[|q.play.sent|].message == Message(header, q.play.s.generation + 1, true, 0)
  }

  lemma NextAwaits(q: Pipeline, p: Pipeline, header: Bytes, turn: Turn)
    requires Inv(p) && AwaitsHeader(q, p, header) && Paired(turn) && !turn.SwapFile?
    ensures AwaitsHeader(q, Next(p, turn), header)
  {
    if turn.Tick? {
      TickAwaits(q, p, header);
    } else if turn.Control? {
      ControlAwaits(p, turn.call);
    }
  }

  lemma TickAwaits(q: Pipeline, p: Pipeline, header: Bytes)
    requires Inv(p) && AwaitsHeader(q, p, header)
    ensures AwaitsHeader(q, DoTick(p), header)
  {
    ContinueAdds(p.play, S.DoStep);
  }

  lemma ControlAwaits(p: Pipeline, call: S.Call)
    requires Checked(p.play.s) && !call.DoStep? && !call.DoSwap? && !call.DoRecords?
    ensures var play := Continue(p.play, call);
            play.sent == p.play.sent && play.s.pendingSwap == p.play.s.pendingSwap &&
            play.s.generation == p.play.s.generation
  {
  }

  lemma {:induction false} RunAwaits(q: Pipeline, p: Pipeline, header: Bytes, turns: seq<Turn>)
    requires Inv(p) && AwaitsHeader(q, p, header)
    requires forall turn | turn in turns :: Paired(turn) && !turn.SwapFile?
    ensures AwaitsHeader(q, Run(p, turns), header)
  {
    if turns != [] {
      var n := |turns| - 1;
      RunAwaits(q, p, header, turns[..n]);
      RunInv(p, turns[..n]);
      NextAwaits(q, Run(p, turns[..n]), header, turns[n]);
    }
  }

  /** A message with something in it has its entry where the earlier ones end. */
  lemma CarriedAt(sent: seq<Sent>, n: nat)
    requires n < |sent| && sent[n].message.payload != []
    ensures |Carried(sent[..n])| < |Carried(sent)| && Carried(sent)[|Carried(sent[..n])|] == n
  {
    assert sent[..n + 1][..n] == sent[..n];
    CarriedSplit(sent, n + 1);
  }

  /** The first entry after `q` is the header. */
  lemma HeaderEntry(q: Pipeline, p: Pipeline, header: Bytes)
    requires Inv(q) && Inv(p) && Follows(q, p) && AwaitsHeader(q, p, header) && !q.held && header != []
    requires |q.sender.log| < |p.sender.log|
    ensures p.sender.log[|q.sender.log|] == header
  {
    var n := |q.play.sent|;
    EntryAfter(q, p, |q.sender.log|);
    CarriedIs(p.play.sent[..Gone(p)]);
    PrefixSlices(q.play.sent, p.play.sent, n, Gone(p));
    CarriedAt(p.play.sent[..Gone(p)], n);
  }

  /**
   Without a held message a client that connects while a swap is pending gets the new header twice:
   when it connects, and as the first entry of its part of the log, unless the file is swapped again.
   */
  lemma HeaderTwice(records: seq<Bytes>, loop: bool, th: Thresholds, sendHeader: bool, header: Bytes, turns: seq<Turn>,
                    id: string, now: real, more: seq<Turn>)
    requires (forall turn | turn in turns :: Paired(turn)) && GoesOn(more, id) && forall turn | turn in more :: !turn.SwapFile?
    ensures var q := Run(Fresh(records, loop, B.Initial(th, sendHeader, header)), turns);
            var p := Run(Joined(q, id, now), more);
            !B.InUse(q.sender, id) && q.play.s.pendingSwap.Some? && !q.held && id in p.sender.traces ==>
              var t := p.sender.traces[id];
              t.head != [] && t.from < t.to ==> t.from < |p.sender.log| && t.head == [p.sender.log[t.from]]
  {
    var q := Run(Fresh(records, loop, B.Initial(th, sendHeader, header)), turns);
    var p := Run(Joined(q, id, now), more);
    FreshMatched(records, loop, th, sendHeader, header);
    RunMatched(Fresh(records, loop, B.Initial(th, sendHeader, header)), turns);
    if !B.InUse(q.sender, id) && q.play.s.pendingSwap.Some? && !q.held && id in p.sender.traces {
      JoinedTwice(q, id, now, more);
    }
  }

  lemma JoinedTwice(q: Pipeline, id: string, now: real, more: seq<Turn>)
    requires Inv(q) && Matched(q) && !B.InUse(q.sender, id) && q.play.s.pendingSwap.Some? && !q.held
    requires GoesOn(more, id) && forall turn | turn in more :: !turn.SwapFile?
    requires id in Run(Joined(q, id, now), more).sender.traces
    ensures var p := Run(Joined(q, id, now), more);
            var t := p.sender.traces[id];
            t.head != [] && t.from < t.to ==> t.from < |p.sender.log| && t.head == [p.sender.log[t.from]]
  {
    var r := Joined(q, id, now);
    var p := Run(r, more);
    JoinedIs(q, id, now);
    RunInv(r, more);
    RunKeepsJoin(r, more, id);
    if p.sender.traces[id].head != [] && p.sender.traces[id].from < p.sender.traces[id].to {
      var header := q.play.s.pendingSwap.value.header.value;
      assert C.InShape(p.sender, id);
      RunFollows(q, r, more);
      RunAwaits(q, r, header, more);
      HeaderEntry(q, p, header);
    }
  }
}
