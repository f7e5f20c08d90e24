/** The claims about the sink writer, over all runs. */
module SinkClaims {
  import opened Splitting
  import opened Framing
  import opened Rotation
  import opened SinkSteps
  import opened SinkRuns

  /** Everything that holds between two steps of a sink that began with `disk`. */
  ghost predicate Inv(disk: Disk, s: Sink) {
    Balanced(s) && MarksAgree(s) && FileInForce(s) && Accounted(s) && DiskReplays(disk, s)
  }

  lemma InvInitial(cfg: Config, disk: Disk)
    requires cfg.Valid()
    ensures Inv(disk, Initial(cfg, disk))
  {
  }

  lemma InvStep(disk: Disk, s: Sink, a: Action)
    requires Inv(disk, s) && Legal(a)
    ensures Inv(disk, Apply(s, a))
  {
    BalancedStep(s, a);
    MarksStep(s, a);
    FileStep(s, a);
    AccountedStep(s, a);
    ReplayStep(disk, s, a);
  }

  /** The invariant holds after any run. */
  lemma {:induction false} InvRun(disk: Disk, s: Sink, actions: seq<Action>)
    requires Inv(disk, s) && forall a | a in actions :: Legal(a)
    ensures Inv(disk, Run(s, actions))
  {
    if actions != [] {
      var n := |actions| - 1;
      InvRun(disk, s, actions[..n]);
      InvStep(disk, Run(s, actions[..n]), actions[n]);
    }
  }

  // ----- Pauses end ------------------------------------------------------

  function DrainMany(s: Sink, lines: seq<Bytes>): (after: Sink)
    requires FileReady(s)
    ensures FileReady(after)
    decreases |lines|
  {
    if lines == [] then s else DrainMany(Drain(s, lines[0]), lines[1..])
  }

  ghost predicate NoStop(items: seq<Item>) {
    forall item | item in items :: !item.stop
  }

  /** One turn of the loop of a running sink takes one item off the queue. */
  lemma DrainTakesOne(s: Sink, line: Bytes)
    requires FileReady(s) && s.task.Running? && s.queue != [] && !s.queue[0].stop
    ensures Drain(s, line).queue == s.queue[1..] && Drain(s, line).task.Running?
  {
    var a := ApplyPending(s.(queue := s.queue[1..]));
    assert a.queue == s.queue[1..] && a.task.Running?;
    PersistFrame(a, s.queue[0], line);
  }

  lemma InvDrain(disk: Disk, s: Sink, line: Bytes)
    requires Inv(disk, s)
    ensures Inv(disk, Drain(s, line))
  {
    BalancedDrain(s, line);
    MarksDrain(s, line);
    FileDrain(s, line);
    AccountedDrain(s, line);
    ReplayDrain(disk, s, line);
  }

  lemma {:induction false} DrainEmpties(disk: Disk, s: Sink, lines: seq<Bytes>)
    requires Inv(disk, s) && s.task.Running? && NoStop(s.queue) && |lines| == |s.queue|
    ensures Inv(disk, DrainMany(s, lines)) && DrainMany(s, lines).queue == []
    decreases |lines|
  {
    if lines != [] {
      InvDrain(disk, s, lines[0]);
      DrainTakesOne(s, lines[0]);
      DrainEmpties(disk, Drain(s, lines[0]), lines[1..]);
    }
  }

  /** After as many turns as there are queued items the sink is not backpressured any more. */
  lemma DrainRelieves(disk: Disk, s: Sink, lines: seq<Bytes>)
    requires Inv(disk, s) && s.task.Running? && NoStop(s.queue) && |lines| == |s.queue|
    ensures var t := DrainMany(s, lines);
            t.queue == [] && t.queuedBytes == 0 && !t.backpressured
  {
    DrainEmpties(disk, s, lines);
  }

  // ----- Draining under one configuration --------------------------------

  lemma DrainKeepsConfig(s: Sink, line: Bytes)
    requires FileInForce(s) && AllFaithful(s)
    requires s.task.Running? && s.pending.None? && s.queue != [] && !s.queue[0].stop
    ensures var t := Drain(s, line);
            FileInForce(t) && AllFaithful(t) && t.task.Running? && t.pending.None? &&
            t.cfg == s.cfg && t.past.configs == s.past.configs && t.queue == s.queue[1..] &&
            (if IsControl(s.queue[0]) then t.past.done == s.past.done
             else |t.past.done| == |s.past.done| + 1 && t.past.done[..|s.past.done|] == s.past.done &&
                  t.past.done[|s.past.done|].item == s.queue[0] &&
                  t.past.done[|s.past.done|].epoch == |s.past.configs| - 1)
  {
    FileDrain(s, line);
    FaithfulDrain(s, line);
    if !IsControl(s.queue[0]) {
      PersistFrame(s.(queue := s.queue[1..]), s.queue[0], line);
    }
  }

  /** What the outcomes of consecutive turns say, when nothing is reconfigured meanwhile. */
  ghost predicate HandledAs(more: seq<Outcome>, items: seq<Item>, cfg: Config) {
    Items(more) == Kept(items) && forall o | o in more :: Faithful(o, cfg)
  }

  /** Draining a prefix of the queue deals with its records in order, under the one configuration. */
  lemma {:induction false} DrainPrefix(s: Sink, pre: seq<Item>, rest: seq<Item>, lines: seq<Bytes>) returns (more: seq<Outcome>)
    requires FileInForce(s) && AllFaithful(s) && s.task.Running? && s.pending.None?
    requires s.queue == pre + rest && NoStop(pre) && |lines| == |pre|
    ensures var t := DrainMany(s, lines);
            FileInForce(t) && AllFaithful(t) && t.task.Running? && t.pending.None? &&
            t.cfg == s.cfg && t.past.configs == s.past.configs && t.queue == rest &&
            t.past.done == s.past.done + more && HandledAs(more, pre, s.cfg)
    decreases |lines|
  {
    if pre == [] {
      more := [];
      assert s.queue == rest && s.past.done == s.past.done + more;
    } else {
      var item, t := pre[0], Drain(s, lines[0]);
      assert s.queue[0] == item && s.queue[1..] == pre[1..] + rest;
      DrainKeepsConfig(s, lines[0]);
      more := DrainPrefix(t, pre[1..], rest, lines[1..]);
      if !IsControl(item) {
        var o := t.past.done[|s.past.done|];
        assert o in t.past.done;
        HandledMore(s.past.done, t.past.done, o, more, pre, s.cfg);
        more := [o] + more;
      }
    }
  }

  lemma HandledMore(done: seq<Outcome>, next: seq<Outcome>, o: Outcome, more: seq<Outcome>, pre: seq<Item>, cfg: Config)
    requires pre != [] && !IsControl(pre[0]) && o.item == pre[0] && Faithful(o, cfg)
    requires |next| == |done| + 1 && next[..|done|] == done && next[|done|] == o
    requires HandledAs(more, pre[1..], cfg)
    ensures next + more == done + ([o] + more) && HandledAs([o] + more, pre, cfg)
  {
    assert next == done + [o];
    Associative(done, [o], more);
    ItemsCons(o, more);
  }

  lemma {:induction false} ItemsCons(o: Outcome, done: seq<Outcome>)
    ensures Items([o] + done) == [o.item] + Items(done)
  {
    if done == [] {
      ItemsAppend([], o);
      assert [o] + done == [] + [o];
    } else {
      var n := |done| - 1;
      ItemsCons(o, done[..n]);
      ItemsAppend([o] + done[..n], done[n]);
      assert [o] + done == ([o] + done[..n]) + [done[n]];
      Associative([o.item], Items(done[..n]), [done[n].item]);
    }
  }

  // ----- Live reconfiguration --------------------------------------------

  lemma DrainAppliesFirst(s: Sink, line: Bytes)
    requires FileReady(s) && s.task.Running? && s.queue != []
    ensures FileReady(ApplyPending(s)) && Drain(s, line) == Drain(ApplyPending(s), line)
  {
    var rest := s.(queue := s.queue[1..]);
    PendingFrame(s);
    assert ApplyPending(rest) == ApplyPending(s).(queue := rest.queue);
    assert ApplyPending(ApplyPending(rest)) == ApplyPending(rest);
  }

  lemma StopUnderOne(s: Sink, pre: seq<Item>, rest: seq<Item>, lines: seq<Bytes>, last: Bytes) returns (more: seq<Outcome>)
    requires FileInForce(s) && AllFaithful(s) && s.task.Running? && s.pending.None?
    requires s.queue == pre + [StopSign] + rest && NoStop(pre) && |lines| == |pre|
    ensures var t := Drain(DrainMany(s, lines), last);
            t.task.Exited? && t.file.None? && t.queue == rest && t.cfg == s.cfg && t.pending.None? &&
            t.past.done == s.past.done + more && HandledAs(more, pre, s.cfg)
  {
    assert s.queue == pre + ([StopSign] + rest);
    more := DrainPrefix(s, pre, [StopSign] + rest, lines);
    HeadTail(StopSign, rest);
  }

  lemma {:induction false} DrainManyApplies(s: Sink, lines: seq<Bytes>, last: Bytes)
    requires FileReady(s) && s.task.Running? && s.queue != []
    ensures FileReady(ApplyPending(s))
    ensures Drain(DrainMany(s, lines), last) == Drain(DrainMany(ApplyPending(s), lines), last)
  {
    DrainAppliesFirst(s, if lines == [] then last else lines[0]);
  }

  /** The configuration that the next turn of the loop works under. */
  function NextConfig(s: Sink): Config {
    if s.pending.Some? then s.pending.value else s.cfg
  }

  lemma ApplyPendingReady(s: Sink)
    requires FileInForce(s) && AllFaithful(s) && s.task.Running?
    ensures var a := ApplyPending(s);
            FileInForce(a) && AllFaithful(a) && a.task.Running? && a.pending.None? && a.cfg == NextConfig(s) &&
            a.queue == s.queue && a.past.done == s.past.done
  {
    PendingFrame(s);
    FileApplyPending(s);
    FaithfulApplyPending(s);
  }

  /**
   All records accepted before the stop sign are dealt with, in order and under the configuration
   in force or just requested, before the loop exits.
   */
  lemma {:induction false} StopDrainsFirst(s: Sink, pre: seq<Item>, rest: seq<Item>, lines: seq<Bytes>, last: Bytes) returns (more: seq<Outcome>)
    requires FileInForce(s) && AllFaithful(s) && s.task.Running?
    requires s.queue == pre + [StopSign] + rest && NoStop(pre) && |lines| == |pre|
    ensures var t := Drain(DrainMany(s, lines), last);
            t.task.Exited? && t.file.None? && t.queue == rest && t.cfg == NextConfig(s) && t.pending.None? &&
            t.past.done == s.past.done + more && HandledAs(more, pre, NextConfig(s))
  {
    ApplyPendingReady(s);
    DrainManyApplies(s, lines, last);
    more := StopUnderOne(ApplyPending(s), pre, rest, lines, last);
  }

  lemma ConfigureReady(s: Sink, cfg: Config)
    requires FileInForce(s) && AllFaithful(s) && s.task.Running?
    ensures var c := Configure(s, cfg);
            var a := ApplyPending(c);
            FileReady(c) && c.task.Running? && c.queue == s.queue + [WakeUp] &&
            FileInForce(a) && AllFaithful(a) && a.task.Running? &&
            a.cfg == cfg && a.pending.None? && a.queue == c.queue && a.past.done == s.past.done
  {
    FileStep(s, DoConfigure(cfg));
    FaithfulStep(s, DoConfigure(cfg));
    ConfigureWaits(s, cfg);
    ApplyPendingReady(Configure(s, cfg));
  }

  lemma ConfigureWaits(s: Sink, cfg: Config)
    requires s.task.Running?
    ensures Configure(s, cfg) == s.(pending := Some(cfg), queue := s.queue + [WakeUp])
  {
  }

  /**
   Records in flight when a running sink is reconfigured all go where the new configuration
   says: to its file if it has one, else nowhere.
   */
  lemma {:induction false} ReconfigureInFlight(s: Sink, cfg: Config, lines: seq<Bytes>) returns (more: seq<Outcome>)
    requires FileInForce(s) && AllFaithful(s) && s.task.Running?
    requires NoStop(s.queue) && |lines| == |s.queue| + 1
    ensures var t := DrainMany(Configure(s, cfg), lines);
            t.queue == [] && t.cfg == cfg && t.past.done == s.past.done + more &&
            HandledAs(more, s.queue, cfg)
  {
    var c := Configure(s, cfg);
    ConfigureReady(s, cfg);
    DrainAppliesFirst(c, lines[0]);
    assert c.queue == c.queue + [];
    more := DrainPrefix(ApplyPending(c), c.queue, [], lines);
    KeptControl(s.queue, WakeUp);
  }

  /** So records in flight survive a reconfiguration exactly if there are none or it has a file. */
  lemma {:induction false} InFlightSurvives(s: Sink, cfg: Config, lines: seq<Bytes>) returns (more: seq<Outcome>)
    requires FileInForce(s) && AllFaithful(s) && s.task.Running?
    requires NoStop(s.queue) && |lines| == |s.queue| + 1
    ensures DrainMany(Configure(s, cfg), lines).past.done == s.past.done + more
    ensures Items(more) == Kept(s.queue)
    ensures (forall o | o in more :: o.written.Some?) <==> Kept(s.queue) == [] || cfg.Target().Some?
  {
    more := ReconfigureInFlight(s, cfg, lines);
    if Kept(s.queue) != [] {
      assert more != [];
      assert more[0] in more;
    }
  }

  /** Where the epochs pass a given one; the first `k` outcomes are of it or earlier. */
  lemma EpochSplit(done: seq<Outcome>, epoch: int) returns (k: nat)
    requires forall i, j | 0 <= i < j < |done| :: done[i].epoch <= done[j].epoch
    ensures k <= |done| && forall i | 0 <= i < |done| :: done[i].epoch <= epoch <==> i < k
  {
    k := 0;
    while k < |done| && done[k].epoch <= epoch
      invariant k <= |done| && forall i | 0 <= i < k :: done[i].epoch <= epoch
    {
      k := k + 1;
    }
  }

  /** Configurations come into force in order, so each one's records are consecutive. */
  lemma SwapSplits(disk: Disk, s: Sink, epoch: int) returns (k: nat)
    requires Inv(disk, s)
    ensures k <= |s.past.done| <= |Kept(s.past.accepted)|
    ensures forall i | 0 <= i < |s.past.done| ::
              s.past.done[i].item == Kept(s.past.accepted)[i] && (s.past.done[i].epoch <= epoch <==> i < k)
  {
    ItemsAre(s.past.done);
    assert |Kept(s.past.accepted)| == |s.past.done| + |Kept(s.queue)|;
    k := EpochSplit(s.past.done, epoch);
  }

  lemma {:induction false} ItemsAre(done: seq<Outcome>)
    ensures |Items(done)| == |done| && forall i | 0 <= i < |done| :: Items(done)[i] == done[i].item
  {
    if done != [] {
      ItemsAre(done[..|done| - 1]);
    }
  }

  // ----- Exactly once ----------------------------------------------------

  ghost predicate HasFile(a: Action) {
    a.DoConfigure? ==> a.cfg.Target().Some?
  }

  ghost predicate AlwaysFile(s: Sink) {
    (s.pending.Some? ==> s.pending.value.Target().Some?) && s.past.configs != [] &&
    s.cfg.Target().Some? && forall c | c in s.past.configs :: c.Target().Some?
  }

  lemma AlwaysFileApplyPending(s: Sink)
    requires AlwaysFile(s)
    ensures AlwaysFile(ApplyPending(s))
  {
  }

  lemma AlwaysFileHandle(s: Sink, item: Item, line: Bytes)
    requires FileReady(s) && AlwaysFile(s)
    ensures AlwaysFile(Handle(s, item, line))
  {
    PersistFrame(s, item, line);
  }

  lemma AlwaysFileDrain(s: Sink, line: Bytes)
    requires FileReady(s) && AlwaysFile(s)
    ensures AlwaysFile(Drain(s, line))
  {
    if s.task.Running? && s.queue != [] {
      AlwaysFileApplyPending(s.(queue := s.queue[1..]));
      AlwaysFileHandle(ApplyPending(s.(queue := s.queue[1..])), s.queue[0], line);
    }
  }

  lemma AlwaysFileStep(s: Sink, a: Action)
    requires FileReady(s) && AlwaysFile(s) && HasFile(a)
    ensures AlwaysFile(Apply(s, a))
  {
    if a.DoDrain? {
      AlwaysFileDrain(s, a.line);
    } else if a.DoConfigure? {
      assert Apply(s, a) == Configure(s, a.cfg);
    } else {
      ConfigsFrame(s, a);
    }
  }

  lemma ConfigsFrame(s: Sink, a: Action)
    requires FileReady(s) && !a.DoDrain? && !a.DoConfigure?
    ensures Apply(s, a).cfg == s.cfg && Apply(s, a).pending == s.pending && Apply(s, a).past.configs == s.past.configs
  {
  }

  lemma {:induction false} AlwaysFileRun(s: Sink, actions: seq<Action>)
    requires FileReady(s) && AlwaysFile(s) && forall a | a in actions :: HasFile(a)
    ensures AlwaysFile(Run(s, actions))
  {
    if actions != [] {
      var n := |actions| - 1;
      AlwaysFileRun(s, actions[..n]);
      AlwaysFileStep(Run(s, actions[..n]), actions[n]);
    }
  }

  lemma AllWritten(s: Sink)
    requires AllFaithful(s) && AlwaysFile(s)
    ensures forall o | o in s.past.done :: o.written.Some?
  {
  }

  /**
   Across any run, any live change of path, format or rotation, and any watermarks: as long as
   every configuration has a file, the written records followed by the queued ones are the
   accepted ones, each once and in order.
   */
  lemma {:induction false} ExactlyOnce(cfg: Config, disk: Disk, actions: seq<Action>)
    requires cfg.Valid() && cfg.Target().Some?
    requires forall a | a in actions :: Legal(a) && HasFile(a)
    ensures var s := Run(Initial(cfg, disk), actions);
            Items(s.past.done) + Kept(s.queue) == Kept(s.past.accepted) &&
            forall o | o in s.past.done :: o.written.Some?
  {
    InvInitial(cfg, disk);
    InvRun(disk, Initial(cfg, disk), actions);
    AlwaysFileRun(Initial(cfg, disk), actions);
    AllOnce(disk, Run(Initial(cfg, disk), actions));
  }

  lemma AllOnce(disk: Disk, s: Sink)
    requires Inv(disk, s) && AlwaysFile(s)
    ensures Accounted(s) && forall o | o in s.past.done :: o.written.Some?
  {
    AllWritten(s);
  }

  lemma OneSubmitted(cfg: Config, record: Record, src: string)
    requires cfg.Valid() && cfg.Target().Some?
    requires record.payload != [] && |record.payload| <= cfg.queueMax
    ensures var s := Run(Initial(cfg, map[]), [DoStart, DoSubmit(record, src)]);
            Inv(map[], s) && s.task.Running? && s.pending.None? && s.past.done == [] &&
            s.queue == s.past.accepted == [Item(record, src, false)]
  {
    var s0, actions := Initial(cfg, map[]), [DoStart, DoSubmit(record, src)];
    assert actions[..1] == [DoStart] && [DoStart][..0] == [];
    assert Run(s0, [DoStart]) == Apply(Run(s0, []), DoStart) == Start(s0);
    assert Run(s0, actions) == Apply(Run(s0, [DoStart]), actions[1]) == Submit(Start(s0), record, src).0;
    InvInitial(cfg, map[]);
    InvRun(map[], s0, actions);
  }

  /** Disabling a sink with a record in flight loses the record. */
  lemma DisablingLosesRecord(cfg: Config, record: Record, src: string, lines: seq<Bytes>)
    requires cfg.Valid() && cfg.Target().Some?
    requires record.payload != [] && |record.payload| <= cfg.queueMax && |lines| == 2
    ensures var s := Run(Initial(cfg, map[]), [DoStart, DoSubmit(record, src)]);
            var t := DrainMany(Configure(s, cfg.(enabled := false)), lines);
            Kept(s.past.accepted) == [Item(record, src, false)] && t.queue == [] &&
            exists o | o in t.past.done :: o.item.record == record && o.written.None?
  {
    var s, item := Run(Initial(cfg, map[]), [DoStart, DoSubmit(record, src)]), Item(record, src, false);
    OneSubmitted(cfg, record, src);
    assert Kept([item]) == [item] + Kept([]);
    var more := ReconfigureInFlight(s, cfg.(enabled := false), lines);
    ItemsAre(more);
    assert more[0] in DrainMany(Configure(s, cfg.(enabled := false)), lines).past.done;
  }

  // ----- What is retained ------------------------------------------------

  /** The blobs written to `path`, in order. */
  function BlobsTo(path: string, configs: seq<Config>, done: seq<Outcome>): seq<Bytes>
    requires forall o | o in done :: 0 <= o.epoch < |configs|
  {
    if done == [] then []
    else
      var n := |done| - 1;
      BlobsTo(path, configs, done[..n]) +
      if done[n].written.Some? && configs[done[n].epoch].Target() == Some(path) then [done[n].written.value] else []
  }

  /** The files of `path` as the pieces they were written from. */
  function ReplayUnits(units: Slots<seq<Bytes>>, path: string, configs: seq<Config>, done: seq<Outcome>): (after: Slots<seq<Bytes>>)
    requires 0 in units && forall o | o in done :: 0 <= o.epoch < |configs|
    ensures 0 in after
  {
    if done == [] then units
    else
      var n := |done| - 1;
      var before, o := ReplayUnits(units, path, configs, done[..n]), done[n];
      var cfg := configs[o.epoch];
      if o.written.Some? && cfg.Target() == Some(path)
      then WriteUnit(before, cfg.backups, cfg.rotationMax, o.written.value)
      else before
  }

  lemma {:induction false} ReplayHolds(slots: Slots<Bytes>, units: Slots<seq<Bytes>>, path: string, configs: seq<Config>, done: seq<Outcome>)
    requires Holds(slots, units) && 0 in slots && forall o | o in done :: 0 <= o.epoch < |configs|
    ensures Holds(Replay(slots, path, configs, done), ReplayUnits(units, path, configs, done))
  {
    if done != [] {
      var n := |done| - 1;
      var o := done[n];
      ReplayHolds(slots, units, path, configs, done[..n]);
      if o.written.Some? {
        WriteHolds(Replay(slots, path, configs, done[..n]), ReplayUnits(units, path, configs, done[..n]),
                   configs[o.epoch].backups, configs[o.epoch].rotationMax, o.written.value);
      }
    }
  }

  /** The backup count of `path` stays `n`; everything else may change, the rotation size included. */
  ghost predicate Backed(path: string, configs: seq<Config>, n: nat) {
    forall c | c in configs && c.Target() == Some(path) :: c.backups == n
  }

  lemma {:induction false} ReplayRetains(units: Slots<seq<Bytes>>, path: string, configs: seq<Config>, done: seq<Outcome>, n: nat)
      returns (lost: seq<Bytes>)
    requires 0 in units && Backed(path, configs, n) && forall o | o in done :: 0 <= o.epoch < |configs|
    ensures Log(units, n) + BlobsTo(path, configs, done) == lost + Log(ReplayUnits(units, path, configs, done), n)
    ensures BlobsTo(path, configs, done) != [] ==> Log(ReplayUnits(units, path, configs, done), n) != []
    ensures lost != [] ==> n in ReplayUnits(units, path, configs, done)
  {
    if done == [] {
      lost := [];
      assert Log(units, n) + [] == [] + Log(units, n);
    } else {
      var m := |done| - 1;
      var o, all, blobs := done[m], Log(units, n), BlobsTo(path, configs, done[..m]);
      lost := ReplayRetains(units, path, configs, done[..m], n);
      if o.written.Some? && configs[o.epoch].Target() == Some(path) {
        var before, max := ReplayUnits(units, path, configs, done[..m]), configs[o.epoch].rotationMax;
        if n in before {
          LastSlotStays(before, n, max, o.written.value);
        }
        LastWritten(before, n, max, o.written.value);
        lost := WriteRetains(all + blobs, lost, before, n, max, o.written.value);
        Associative(all, blobs, [o.written.value]);
      } else {
        assert blobs + [] == blobs;
      }
    }
  }

  /**
   The retained files of a path, oldest first, are the files it had before the run followed by
   everything written to it, minus a number of whole leading files or records: live changes to
   the rotation size, to other paths, to the format or to the watermarks do not matter.  What was
   written last is never lost, and nothing is lost before the last slot is taken.
   */
  lemma SinkRetains(disk: Disk, s: Sink, path: string, n: nat) returns (k: nat)
    requires Inv(disk, s) && Backed(path, s.past.configs, n)
    ensures var all := InitialFiles(Opened(disk, path), n) + BlobsTo(path, s.past.configs, s.past.done);
            k <= |all| && Log(Opened(s.disk, path), n) == Concat(all[k..]) &&
            (BlobsTo(path, s.past.configs, s.past.done) != [] ==> k < |all|)
    ensures var after := Opened(s.disk, path);
            k > 0 ==> n in after && (Packed(Opened(disk, path), n) ==> Contiguous(after, n))
  {
    var slots, configs, done := Opened(disk, path), s.past.configs, s.past.done;
    var units := AsUnits(slots);
    AsUnitsHold(slots, 0);
    ReplayHolds(slots, units, path, configs, done);
    LogHolds(Replay(slots, path, configs, done), ReplayUnits(units, path, configs, done), n);
    var lost := ReplayRetains(units, path, configs, done, n);
    k := |lost|;
    SuffixAt(lost, Log(ReplayUnits(units, path, configs, done), n));
    if Packed(slots, n) {
      ReplayPacked(slots, path, configs, done, n);
    }
  }

  lemma {:induction false} ReplayPacked(slots: Slots<Bytes>, path: string, configs: seq<Config>, done: seq<Outcome>, n: nat)
    requires 0 in slots && Packed(slots, n) && Backed(path, configs, n) && forall o | o in done :: 0 <= o.epoch < |configs|
    ensures Packed(Replay(slots, path, configs, done), n)
  {
    if done != [] {
      var m := |done| - 1;
      ReplayPacked(slots, path, configs, done[..m], n);
      if done[m].written.Some? {
        WritePacked(Replay(slots, path, configs, done[..m]), n, configs[done[m].epoch].rotationMax, done[m].written.value);
      }
    }
  }

  lemma SuffixAt<T>(a: seq<T>, b: seq<T>)
    ensures (a + b)[|a|..] == b
  {
  }

  lemma {:induction false} ReplayBounded(units: Slots<seq<Bytes>>, path: string, configs: seq<Config>, done: seq<Outcome>, max: nat)
    requires 0 in units && AllBounded(units, max) && forall o | o in done :: 0 <= o.epoch < |configs|
    requires forall c | c in configs && c.Target() == Some(path) :: c.rotationMax <= max
    ensures AllBounded(ReplayUnits(units, path, configs, done), max)
  {
    if done != [] {
      var n := |done| - 1;
      var o := done[n];
      ReplayBounded(units, path, configs, done[..n], max);
      if o.written.Some? && configs[o.epoch].Target() == Some(path) {
        WriteBounded(ReplayUnits(units, path, configs, done[..n]), configs[o.epoch].backups,
                     configs[o.epoch].rotationMax, max, o.written.value);
      }
    }
  }

  lemma {:induction false} ReplayLacks(units: Slots<seq<Bytes>>, path: string, configs: seq<Config>, done: seq<Outcome>, piece: Bytes)
    requires 0 in units && Lacks(units, piece) && forall o | o in done :: 0 <= o.epoch < |configs|
    requires piece !in BlobsTo(path, configs, done)
    ensures Lacks(ReplayUnits(units, path, configs, done), piece)
  {
    if done != [] {
      var n := |done| - 1;
      var o := done[n];
      ReplayLacks(units, path, configs, done[..n], piece);
      if o.written.Some? && configs[o.epoch].Target() == Some(path) {
        assert o.written.value in BlobsTo(path, configs, done);
        WriteLacks(ReplayUnits(units, path, configs, done[..n]), configs[o.epoch].backups,
                   configs[o.epoch].rotationMax, o.written.value, piece);
      }
    }
  }

  /**
   Every file of a path is within the largest rotation size in force for it, or is one single
   record's blob, or is a file that was there before the run.
   */
  lemma SinkFilesBounded(disk: Disk, s: Sink, path: string, max: nat, j: nat)
    requires Inv(disk, s) && j in Opened(s.disk, path)
    requires forall c | c in s.past.configs && c.Target() == Some(path) :: c.rotationMax <= max
    ensures var file := Opened(s.disk, path)[j];
            |file| <= max || file in BlobsTo(path, s.past.configs, s.past.done) || WasFile(Opened(disk, path), file)
  {
    var slots, configs, done := Opened(disk, path), s.past.configs, s.past.done;
    var units := AsUnits(slots);
    AsUnitsHold(slots, max);
    ReplayHolds(slots, units, path, configs, done);
    ReplayBounded(units, path, configs, done, max);
    var pieces := ReplayUnits(units, path, configs, done)[j];
    var file := Concat(pieces);
    if |file| > max {
      OnePiece(pieces);
      if file !in BlobsTo(path, configs, done) && !WasFile(slots, file) {
        NewIsLacked(slots, file);
        ReplayLacks(units, path, configs, done, file);
      }
    }
  }

  /** The statistics count exactly what was written. */
  lemma {:induction false} StatisticsRight(cfg: Config, disk: Disk, actions: seq<Action>)
    ensures var s := Run(Initial(cfg, disk), actions);
            s.stats.recordsWritten == |Blobs(s.past.done)| && s.stats.bytesWritten == TotalLength(Blobs(s.past.done))
  {
    if actions != [] {
      var n := |actions| - 1;
      StatisticsRight(cfg, disk, actions[..n]);
      CountedStep(Run(Initial(cfg, disk), actions[..n]), actions[n]);
    }
  }
}
