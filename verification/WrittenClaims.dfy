/** What a run of the sink accepts, writes and rotates, said of its actions. */
module WrittenClaims {
  import opened Splitting
  import opened Framing
  import opened Rotation
  import opened SinkSteps
  import opened SinkRuns
  import opened SinkClaims

  // ----- Submissions -----------------------------------------------------

  /** The sink is enabled and has room. */
  predicate Accepts(s: Sink, record: Record) {
    s.cfg.enabled && s.queuedBytes + |record.payload| <= s.cfg.queueMax
  }

  function AcceptedBy(s: Sink, actions: seq<Action>): seq<Item>
    requires FileReady(s)
  {
    if actions == [] then []
    else
      var n := |actions| - 1;
      var a := actions[n];
      AcceptedBy(s, actions[..n]) +
      if a.DoSubmit? && Accepts(Run(s, actions[..n]), a.record) then [Item(a.record, a.src, false)] else []
  }

  function RefusedBy(s: Sink, actions: seq<Action>): nat
    requires FileReady(s)
  {
    if actions == [] then 0
    else
      var n := |actions| - 1;
      var a, t := actions[n], Run(s, actions[..n]);
      RefusedBy(s, actions[..n]) + if a.DoSubmit? && t.cfg.enabled && !Accepts(t, a.record) then 1 else 0
  }

  lemma SubmitStep(s: Sink, a: Action)
    requires FileReady(s)
    ensures var t := Apply(s, a);
            t.past.accepted == s.past.accepted +
              (if a.DoSubmit? && Accepts(s, a.record) then [Item(a.record, a.src, false)] else []) &&
            t.stats.recordsDropped == s.stats.recordsDropped +
              (if a.DoSubmit? && s.cfg.enabled && !Accepts(s, a.record) then 1 else 0)
  {
    EmptyRight(s.past.accepted);
    if a.DoDrain? {
      AcceptedDrain(s, a.line);
    }
  }

  lemma AcceptedDrain(s: Sink, line: Bytes)
    requires FileReady(s)
    ensures var t := Drain(s, line);
            t.past.accepted == s.past.accepted && t.stats.recordsDropped == s.stats.recordsDropped
  {
    if s.task.Running? && s.queue != [] {
      var rest := s.(queue := s.queue[1..]);
      PendingFrame(rest);
      DropsPending(rest);
      AcceptedHandle(ApplyPending(rest), s.queue[0], line);
    }
  }

  lemma DropsPending(s: Sink)
    ensures ApplyPending(s).stats.recordsDropped == s.stats.recordsDropped
  {
  }

  lemma AcceptedHandle(s: Sink, item: Item, line: Bytes)
    requires FileReady(s)
    ensures var t := Handle(s, item, line);
            t.past.accepted == s.past.accepted && t.stats.recordsDropped == s.stats.recordsDropped
  {
    if !IsControl(item) {
      PersistFrame(s, item, line);
      HandleFrame(s, item, line);
    }
  }

  /** In every run the sink accepts exactly what comes while it is enabled and has room, and counts every other record it refuses. */
  lemma {:induction false} SubmitsExactly(s: Sink, actions: seq<Action>)
    requires FileReady(s)
    ensures var t := Run(s, actions);
            t.past.accepted == s.past.accepted + AcceptedBy(s, actions) &&
            t.stats.recordsDropped == s.stats.recordsDropped + RefusedBy(s, actions)
  {
    if actions == [] {
      EmptyRight(s.past.accepted);
    } else {
      var n := |actions| - 1;
      SubmitsExactly(s, actions[..n]);
      SubmitStep(Run(s, actions[..n]), actions[n]);
      Associative(s.past.accepted, AcceptedBy(s, actions[..n]),
                  AcceptedBy(s, actions)[|AcceptedBy(s, actions[..n])|..]);
    }
  }

  // ----- What the turns write --------------------------------------------

  /** A turn that takes a record off the queue. */
  predicate Takes(s: Sink, a: Action) {
    a.DoDrain? && s.task.Running? && s.queue != [] && !IsControl(s.queue[0])
  }

  /** What is to be written of a record: nothing, the payload and the separator, or the JSON line of the turn. */
  function Due(cfg: Config, item: Item, line: Bytes): Option<Bytes> {
    if cfg.Target().None? then None
    else match cfg.format
      case Delimited => Some(item.record.payload + cfg.separator)
      case Jsonl => Some(line)
  }

  /** A record that has left the queue, the configuration it left under, and what was written of it. */
  datatype Entry = Entry(item: Item, cfg: Config, written: Option<Bytes>)

  /** What the turns of a run are to write. */
  function Entries(s: Sink, actions: seq<Action>): seq<Entry>
    requires FileReady(s)
  {
    if actions == [] then []
    else
      var n := |actions| - 1;
      var t, a := Run(s, actions[..n]), actions[n];
      Entries(s, actions[..n]) + EntryOf(t, a)
  }

  /** The same as the sink's history has it. */
  function Ledger(configs: seq<Config>, done: seq<Outcome>): seq<Entry>
    requires forall o | o in done :: 0 <= o.epoch < |configs|
  {
    if done == [] then []
    else
      var n := |done| - 1;
      Ledger(configs, done[..n]) + [Entry(done[n].item, configs[done[n].epoch], done[n].written)]
  }

  lemma {:induction false} LedgerConfigs(configs: seq<Config>, more: seq<Config>, done: seq<Outcome>)
    requires forall o | o in done :: 0 <= o.epoch < |configs|
    ensures Ledger(configs + more, done) == Ledger(configs, done)
  {
    if done != [] {
      LedgerConfigs(configs, more, done[..|done| - 1]);
    }
  }

  lemma LedgerMore(configs: seq<Config>, done: seq<Outcome>, o: Outcome)
    requires (forall p | p in done :: 0 <= p.epoch < |configs|) && 0 <= o.epoch < |configs|
    ensures Ledger(configs, done + [o]) == Ledger(configs, done) + [Entry(o.item, configs[o.epoch], o.written)]
  {
    assert (done + [o])[..|done|] == done;
  }

  lemma LedgerPending(s: Sink)
    requires AllFaithful(s)
    ensures AllFaithful(ApplyPending(s))
    ensures Ledger(ApplyPending(s).past.configs, ApplyPending(s).past.done) == Ledger(s.past.configs, s.past.done)
  {
    FaithfulApplyPending(s);
    PendingFrame(s);
    if s.pending.Some? {
      PendingConfigs(s);
      LedgerConfigs(s.past.configs, [s.pending.value], s.past.done);
    }
  }

  lemma PendingConfigs(s: Sink)
    requires s.pending.Some?
    ensures ApplyPending(s).past.configs == s.past.configs + [s.pending.value]
  {
  }

  lemma PersistDue(s: Sink, item: Item, line: Bytes)
    requires FileInForce(s) && s.task.Running?
    ensures Persist(s, item, line).1 == Due(s.cfg, item, line)
  {
  }

  lemma LedgerHandle(s: Sink, item: Item, line: Bytes)
    requires FileInForce(s) && AllFaithful(s) && s.task.Running? && !IsControl(item)
    ensures var t := Handle(s, item, line);
            AllFaithful(t) &&
            Ledger(t.past.configs, t.past.done) ==
              Ledger(s.past.configs, s.past.done) + [Entry(item, s.cfg, Due(s.cfg, item, line))]
  {
    FaithfulHandle(s, item, line);
    HandleFrame(s, item, line);
    PersistDue(s, item, line);
    LedgerMore(s.past.configs, s.past.done, Outcome(item, |s.past.configs| - 1, Due(s.cfg, item, line)));
  }

  lemma LedgerTurn(s: Sink, line: Bytes)
    requires FileInForce(s) && AllFaithful(s) && s.task.Running? && s.queue != [] && !IsControl(s.queue[0])
    ensures var t := Drain(s, line);
            AllFaithful(t) &&
            Ledger(t.past.configs, t.past.done) ==
              Ledger(s.past.configs, s.past.done) + EntryOf(s, DoDrain(line))
  {
    var rest, item := s.(queue := s.queue[1..]), s.queue[0];
    FaithfulFrame(s, rest);
    LedgerReady(rest);
    var t := ApplyPending(rest);
    TurnIs(s, line);
    LedgerHandle(t, item, line);
  }

  lemma TurnIs(s: Sink, line: Bytes)
    requires FileReady(s) && s.task.Running? && s.queue != []
    ensures Drain(s, line) == Handle(ApplyPending(s.(queue := s.queue[1..])), s.queue[0], line)
  {
  }

  lemma LedgerReady(s: Sink)
    requires FileInForce(s) && AllFaithful(s) && s.task.Running?
    ensures var t := ApplyPending(s);
            FileInForce(t) && AllFaithful(t) && t.task.Running? && t.cfg == NextConfig(s) &&
            Ledger(t.past.configs, t.past.done) == Ledger(s.past.configs, s.past.done)
  {
    ApplyPendingReady(s);
    LedgerPending(s);
  }

  lemma LedgerQuiet(s: Sink, a: Action)
    requires FileInForce(s) && AllFaithful(s) && !Takes(s, a)
    ensures var t := Apply(s, a);
            AllFaithful(t) && Ledger(t.past.configs, t.past.done) == Ledger(s.past.configs, s.past.done)
  {
    FaithfulStep(s, a);
    if a.DoConfigure? {
      if s.task.Idle? {
        LedgerConfigs(s.past.configs, [a.cfg], s.past.done);
      }
    } else if a.DoDrain? {
      if s.task.Running? && s.queue != [] {
        var rest := s.(queue := s.queue[1..]);
        TurnIs(s, a.line);
        FaithfulFrame(s, rest);
        LedgerReady(rest);
        ControlHandled(ApplyPending(rest), s.queue[0], a.line);
      }
    } else {
      HistoryFrame(s, a);
    }
  }

  lemma ControlHandled(s: Sink, item: Item, line: Bytes)
    requires FileReady(s) && IsControl(item)
    ensures Handle(s, item, line).past == s.past
  {
  }

  lemma HistoryFrame(s: Sink, a: Action)
    requires FileReady(s) && !a.DoConfigure? && !a.DoDrain?
    ensures Apply(s, a).past.configs == s.past.configs && Apply(s, a).past.done == s.past.done
  {
  }

  /**
   In every run: the records that have left the queue, the configuration each left under, and what
   was written of it, are those of the turns that took a record, in order.
   */
  lemma {:induction false} EntriesExactly(cfg: Config, disk: Disk, actions: seq<Action>)
    requires cfg.Valid() && forall a | a in actions :: Legal(a)
    ensures var s := Run(Initial(cfg, disk), actions);
            Inv(disk, s) && Ledger(s.past.configs, s.past.done) == Entries(Initial(cfg, disk), actions)
  {
    InvInitial(cfg, disk);
    InvRun(disk, Initial(cfg, disk), actions);
    if actions != [] {
      var n := |actions| - 1;
      var s := Run(Initial(cfg, disk), actions[..n]);
      EntriesExactly(cfg, disk, actions[..n]);
      EntriesLast(s, actions[n]);
    }
  }

  /** What a turn is to write, if it takes a record. */
  function EntryOf(s: Sink, a: Action): seq<Entry> {
    if Takes(s, a) then [Entry(s.queue[0], NextConfig(s), Due(NextConfig(s), s.queue[0], a.line))] else []
  }

  lemma EntriesLast(s: Sink, a: Action)
    requires FileInForce(s) && AllFaithful(s) && AllFaithful(Apply(s, a))
    ensures LedgerOf(Apply(s, a)) == LedgerOf(s) + EntryOf(s, a)
  {
    ApplyDrain(s, a);
    if Takes(s, a) {
      EntriesTurn(s, a.line);
    } else {
      LedgerQuiet(s, a);
      EmptyRight(LedgerOf(s));
    }
  }

  lemma ApplyDrain(s: Sink, a: Action)
    requires FileReady(s)
    ensures a.DoDrain? ==> Apply(s, a) == Drain(s, a.line)
  {
  }

  function LedgerOf(s: Sink): seq<Entry>
    requires AllFaithful(s)
  {
    Ledger(s.past.configs, s.past.done)
  }

  lemma EntriesTurn(s: Sink, line: Bytes)
    requires FileInForce(s) && AllFaithful(s) && Takes(s, DoDrain(line)) && AllFaithful(Drain(s, line))
    ensures LedgerOf(Drain(s, line)) == LedgerOf(s) + EntryOf(s, DoDrain(line))
  {
    LedgerTurn(s, line);
  }

  // ----- What is in the files --------------------------------------------

  /** What entries put into the files of a path. */
  function PutTo(path: string, entries: seq<Entry>): seq<Bytes> {
    if entries == [] then []
    else
      var n := |entries| - 1;
      var e := entries[n];
      PutTo(path, entries[..n]) + if e.written.Some? && e.cfg.Target() == Some(path) then [e.written.value] else []
  }

  lemma {:induction false} BlobsAreEntries(path: string, configs: seq<Config>, done: seq<Outcome>)
    requires forall o | o in done :: 0 <= o.epoch < |configs|
    ensures BlobsTo(path, configs, done) == PutTo(path, Ledger(configs, done))
  {
    if done != [] {
      var n := |done| - 1;
      BlobsAreEntries(path, configs, done[..n]);
      PutMore(path, Ledger(configs, done[..n]), Entry(done[n].item, configs[done[n].epoch], done[n].written));
    }
  }

  lemma PutMore(path: string, entries: seq<Entry>, e: Entry)
    ensures PutTo(path, entries + [e]) ==
              PutTo(path, entries) + if e.written.Some? && e.cfg.Target() == Some(path) then [e.written.value] else []
  {
    assert (entries + [e])[..|entries|] == entries;
  }

  /**
   The retained files of a path, oldest first, end in what the turns of the run were to write to it;
   only whole leading files or records are missing.
   */
  lemma {:induction false} FilesHoldEntries(cfg: Config, disk: Disk, actions: seq<Action>, path: string, n: nat) returns (k: nat)
    requires cfg.Valid() && forall a | a in actions :: Legal(a)
    requires Backed(path, Run(Initial(cfg, disk), actions).past.configs, n)
    ensures var all := InitialFiles(Opened(disk, path), n) + PutTo(path, Entries(Initial(cfg, disk), actions));
            k <= |all| && Log(Opened(Run(Initial(cfg, disk), actions).disk, path), n) == Concat(all[k..])
  {
    var s := Run(Initial(cfg, disk), actions);
    EntriesExactly(cfg, disk, actions);
    BlobsAreEntries(path, s.past.configs, s.past.done);
    k := SinkRetains(disk, s, path, n);
  }

  /** The JSON lines of the turns that took a record. */
  function LinesTaken(s: Sink, actions: seq<Action>): seq<Bytes>
    requires FileReady(s)
  {
    if actions == [] then []
    else
      var n := |actions| - 1;
      LinesTaken(s, actions[..n]) + if Takes(Run(s, actions[..n]), actions[n]) then [actions[n].line] else []
  }

  /** A configuration that writes JSON lines to a path. */
  predicate Jsons(cfg: Config, path: string) {
    cfg.format.Jsonl? && cfg.Target() == Some(path)
  }

  ghost predicate AllJsons(s: Sink, path: string) {
    Jsons(s.cfg, path) && (s.pending.Some? ==> Jsons(s.pending.value, path))
  }

  lemma JsonsStep(s: Sink, a: Action, path: string)
    requires FileReady(s) && AllJsons(s, path) && (a.DoConfigure? ==> Jsons(a.cfg, path))
    ensures AllJsons(Apply(s, a), path)
  {
    if a.DoDrain? {
      JsonsTurn(s, a.line, path);
    } else if a.DoConfigure? {
      assert Apply(s, a) == Configure(s, a.cfg);
    } else {
      ConfigsFrame(s, a);
    }
  }

  lemma JsonsTurn(s: Sink, line: Bytes, path: string)
    requires FileReady(s) && AllJsons(s, path)
    ensures AllJsons(Drain(s, line), path)
  {
    if s.task.Running? && s.queue != [] {
      var rest := s.(queue := s.queue[1..]);
      TurnIs(s, line);
      PendingFrame(rest);
      HandleKeepsConfig(ApplyPending(rest), s.queue[0], line);
    }
  }

  lemma HandleKeepsConfig(s: Sink, item: Item, line: Bytes)
    requires FileReady(s)
    ensures Handle(s, item, line).cfg == s.cfg && Handle(s, item, line).pending == s.pending
  {
    if !IsControl(item) {
      PersistFrame(s, item, line);
    }
  }

  /** Under JSONL configurations of one path the turns write to it exactly their lines, in order. */
  lemma {:induction false} JsonLinesWritten(s: Sink, actions: seq<Action>, path: string)
    requires FileReady(s) && AllJsons(s, path) && forall a | a in actions && a.DoConfigure? :: Jsons(a.cfg, path)
    ensures AllJsons(Run(s, actions), path) && PutTo(path, Entries(s, actions)) == LinesTaken(s, actions)
  {
    if actions != [] {
      var n := |actions| - 1;
      var t, a := Run(s, actions[..n]), actions[n];
      JsonLinesWritten(s, actions[..n], path);
      JsonsStep(t, a, path);
      if Takes(t, a) {
        PutMore(path, Entries(s, actions[..n]), Entry(t.queue[0], NextConfig(t), Due(NextConfig(t), t.queue[0], a.line)));
      } else {
        EmptyRight(Entries(s, actions[..n]));
        EmptyRight(LinesTaken(s, actions[..n]));
      }
    }
  }

  /** So the retained files end in the JSON lines of the turns that took a record, in order. */
  lemma {:induction false} JsonLinesRetained(cfg: Config, disk: Disk, actions: seq<Action>, path: string, n: nat) returns (k: nat)
    requires cfg.Valid() && Jsons(cfg, path)
    requires forall a | a in actions :: Legal(a) && (a.DoConfigure? ==> Jsons(a.cfg, path))
    requires Backed(path, Run(Initial(cfg, disk), actions).past.configs, n)
    ensures var all := InitialFiles(Opened(disk, path), n) + LinesTaken(Initial(cfg, disk), actions);
            k <= |all| && Log(Opened(Run(Initial(cfg, disk), actions).disk, path), n) == Concat(all[k..])
  {
    JsonLinesWritten(Initial(cfg, disk), actions, path);
    k := FilesHoldEntries(cfg, disk, actions, path, n);
  }

  // ----- Rotations -------------------------------------------------------

  /** The bytes of the live file of a path; a file that is not there yet is empty. */
  function LiveSize(disk: Disk, path: string): nat {
    |Opened(disk, path)[0]|
  }

  /** The turn writes to a file that is not empty and has no room for it. */
  predicate Overfills(s: Sink, a: Action) {
    Takes(s, a) && NextConfig(s).Target().Some? &&
    var size := LiveSize(s.disk, NextConfig(s).Target().value);
    size > 0 && size + |Due(NextConfig(s), s.queue[0], a.line).value| > NextConfig(s).rotationMax
  }

  function OverfillsBy(s: Sink, actions: seq<Action>): nat
    requires FileReady(s)
  {
    if actions == [] then 0
    else
      var n := |actions| - 1;
      OverfillsBy(s, actions[..n]) + if Overfills(Run(s, actions[..n]), actions[n]) then 1 else 0
  }

  lemma PendingKeepsFiles(s: Sink)
    requires s.pending.Some? ==> FileReady(s)
    ensures ApplyPending(s).stats.rotations == s.stats.rotations
    ensures forall path :: Opened(ApplyPending(s).disk, path) == Opened(s.disk, path)
  {
  }

  lemma RotatesHandle(s: Sink, item: Item, line: Bytes)
    requires FileInForce(s) && s.task.Running? && !IsControl(item)
    ensures Handle(s, item, line).stats.rotations == s.stats.rotations +
              if s.cfg.Target().Some? && LiveSize(s.disk, s.cfg.Target().value) > 0 &&
                 LiveSize(s.disk, s.cfg.Target().value) + |Due(s.cfg, item, line).value| > s.cfg.rotationMax
              then 1 else 0
  {
    HandleFrame(s, item, line);
  }

  lemma RotatesTurn(s: Sink, line: Bytes)
    requires FileInForce(s) && AllFaithful(s) && s.task.Running? && s.queue != []
    ensures Drain(s, line).stats.rotations == s.stats.rotations + if Overfills(s, DoDrain(line)) then 1 else 0
  {
    var rest := s.(queue := s.queue[1..]);
    TurnIs(s, line);
    FaithfulFrame(s, rest);
    ApplyPendingReady(rest);
    PendingKeepsFiles(rest);
    if !IsControl(s.queue[0]) {
      RotatesHandle(ApplyPending(rest), s.queue[0], line);
    }
  }

  lemma RotatesQuiet(s: Sink, a: Action)
    requires FileReady(s) && !a.DoDrain?
    ensures Apply(s, a).stats.rotations == s.stats.rotations
  {
  }

  /** In every run the live file is rotated exactly by the turns that would overfill it. */
  lemma {:induction false} RotatesExactly(cfg: Config, disk: Disk, actions: seq<Action>)
    requires cfg.Valid() && forall a | a in actions :: Legal(a)
    ensures Run(Initial(cfg, disk), actions).stats.rotations == OverfillsBy(Initial(cfg, disk), actions)
  {
    if actions != [] {
      var n := |actions| - 1;
      var s, a := Run(Initial(cfg, disk), actions[..n]), actions[n];
      RotatesExactly(cfg, disk, actions[..n]);
      EntriesExactly(cfg, disk, actions[..n]);
      RotatesStep(s, a);
    }
  }

  lemma RotatesStep(s: Sink, a: Action)
    requires FileInForce(s) && AllFaithful(s)
    ensures Apply(s, a).stats.rotations == s.stats.rotations + if Overfills(s, a) then 1 else 0
  {
    if !a.DoDrain? {
      RotatesQuiet(s, a);
    } else if s.task.Running? && s.queue != [] {
      RotatesTurn(s, a.line);
    }
  }

  // ----- Backpressure ----------------------------------------------------

  /** Between reconfigurations: over the high watermark the flag is set, under the low one it is not. */
  ghost predicate Banded(s: Sink) {
    s.cfg.Valid() && s.pending.None? &&
    (s.queuedBytes >= s.cfg.high ==> s.backpressured) && (s.backpressured ==> s.queuedBytes > s.cfg.low)
  }

  lemma UpdateBands(s: Sink)
    requires s.cfg.Valid()
    ensures var t := UpdateBackpressure(s);
            t.queuedBytes == s.queuedBytes && t.cfg == s.cfg && t.pending == s.pending &&
            (t.backpressured <==> t.queuedBytes >= s.cfg.high || (s.backpressured && t.queuedBytes > s.cfg.low))
  {
  }

  lemma BandStep(s: Sink, a: Action)
    requires FileReady(s) && Banded(s) && !a.DoConfigure?
    ensures var t := Apply(s, a);
            Banded(t) && t.cfg == s.cfg &&
            (t.backpressured <==> t.queuedBytes >= s.cfg.high || (s.backpressured && t.queuedBytes > s.cfg.low))
  {
    if a.DoSubmit? {
      UpdateBands(Enqueued(s, Item(a.record, a.src, false)));
    } else if a.DoDrain? {
      BandTurn(s, a.line);
    }
  }

  lemma BandTurn(s: Sink, line: Bytes)
    requires FileReady(s) && Banded(s)
    ensures var t := Drain(s, line);
            Banded(t) && t.cfg == s.cfg &&
            (t.backpressured <==> t.queuedBytes >= s.cfg.high || (s.backpressured && t.queuedBytes > s.cfg.low))
  {
    if s.task.Running? && s.queue != [] && !IsControl(s.queue[0]) {
      var rest, item := s.(queue := s.queue[1..]), s.queue[0];
      TurnIs(s, line);
      PersistFrame(rest, item, line);
      var (t, blob) := Persist(rest, item, line);
      UpdateBands(Settled(t, item, blob));
    }
  }

  /** A moment at or over the high watermark, and none at or under the low one since. */
  ghost predicate HighSince(s: Sink, actions: seq<Action>, n: nat)
    requires FileReady(s)
  {
    n <= |actions| && Run(s, actions[..n]).queuedBytes >= s.cfg.high &&
    forall m: nat | n <= m <= |actions| :: Run(s, actions[..m]).queuedBytes > s.cfg.low
  }

  /**
   Hysteresis as a statement about history: while nothing is reconfigured the sink is backpressured
   exactly if its queue has been at or over the high watermark at some point and over the low one
   ever since.
   */
  lemma {:induction false} BackpressuredIffHighSince(s: Sink, actions: seq<Action>)
    requires FileReady(s) && Banded(s) && !s.backpressured && forall a | a in actions :: !a.DoConfigure?
    ensures Banded(Run(s, actions)) && Run(s, actions).cfg == s.cfg
    ensures Run(s, actions).backpressured <==> exists n: nat :: HighSince(s, actions, n)
  {
    if actions == [] {
      forall n: nat ensures !HighSince(s, actions, n) {
        if n == 0 {
          assert actions[..n] == actions;
        }
      }
    } else {
      var m := |actions| - 1;
      BackpressuredIffHighSince(s, actions[..m]);
      BandStep(Run(s, actions[..m]), actions[m]);
      HighSinceMore(s, actions);
    }
  }

  lemma HighSinceMore(s: Sink, actions: seq<Action>)
    requires FileReady(s) && actions != [] && s.cfg.Valid()
    ensures var m, q := |actions| - 1, Run(s, actions).queuedBytes;
            (exists n: nat :: HighSince(s, actions, n)) <==>
              q >= s.cfg.high || ((exists n: nat :: HighSince(s, actions[..m], n)) && q > s.cfg.low)
  {
    var m, q := |actions| - 1, Run(s, actions).queuedBytes;
    if q >= s.cfg.high {
      HighNow(s, actions);
    }
    if (exists n: nat :: HighSince(s, actions[..m], n)) && q > s.cfg.low {
      var n: nat :| HighSince(s, actions[..m], n);
      HighStill(s, actions, n);
    }
    if exists n: nat :: HighSince(s, actions, n) {
      var n: nat :| HighSince(s, actions, n);
      HighBefore(s, actions, n);
    }
  }

  lemma PrefixesSame<T>(xs: seq<T>)
    requires xs != []
    ensures xs[..|xs|] == xs && forall k: nat | k < |xs| :: xs[..|xs| - 1][..k] == xs[..k]
  {
  }

  lemma HighNow(s: Sink, actions: seq<Action>)
    requires FileReady(s) && actions != [] && s.cfg.Valid() && Run(s, actions).queuedBytes >= s.cfg.high
    ensures HighSince(s, actions, |actions|)
  {
    PrefixesSame(actions);
  }

  lemma HighStill(s: Sink, actions: seq<Action>, n: nat)
    requires FileReady(s) && actions != [] && Run(s, actions).queuedBytes > s.cfg.low
    requires HighSince(s, actions[..|actions| - 1], n)
    ensures HighSince(s, actions, n)
  {
    PrefixesSame(actions);
    forall k: nat | n <= k <= |actions| ensures Run(s, actions[..k]).queuedBytes > s.cfg.low {
      if k < |actions| {
        assert Run(s, actions[..|actions| - 1][..k]).queuedBytes > s.cfg.low;
      }
    }
  }

  lemma HighBefore(s: Sink, actions: seq<Action>, n: nat)
    requires FileReady(s) && actions != [] && HighSince(s, actions, n)
    ensures Run(s, actions).queuedBytes > s.cfg.low
    ensures n < |actions| ==> HighSince(s, actions[..|actions| - 1], n)
    ensures n == |actions| ==> Run(s, actions).queuedBytes >= s.cfg.high
  {
    PrefixesSame(actions);
    assert Run(s, actions[..|actions|]).queuedBytes > s.cfg.low;
    if n < |actions| {
      var earlier := actions[..|actions| - 1];
      forall k: nat | n <= k < |actions| ensures Run(s, earlier[..k]).queuedBytes > s.cfg.low {
        assert Run(s, actions[..k]).queuedBytes > s.cfg.low;
      }
    }
  }

  // ----- Sinks without a file --------------------------------------------

  /** Disabled, or without a path, or with an empty one. */
  predicate Fileless(cfg: Config) {
    !cfg.enabled || cfg.path.None? || cfg.path.value == ""
  }

  ghost predicate Idles(s: Sink, disk: Disk) {
    Fileless(s.cfg) && (s.pending.Some? ==> Fileless(s.pending.value)) && s.file.None? && s.disk == disk &&
    s.stats.recordsWritten == 0
  }

  lemma IdlesHandle(s: Sink, disk: Disk, item: Item, line: Bytes)
    requires FileReady(s) && Idles(s, disk)
    ensures Idles(Handle(s, item, line), disk)
  {
  }

  lemma IdlesPending(s: Sink, disk: Disk)
    requires Idles(s, disk)
    ensures Idles(ApplyPending(s), disk)
  {
  }

  lemma IdlesStep(s: Sink, disk: Disk, a: Action)
    requires FileReady(s) && Idles(s, disk) && (a.DoConfigure? ==> Fileless(a.cfg))
    ensures Idles(Apply(s, a), disk)
  {
    ApplyDrain(s, a);
    if a.DoDrain? && s.task.Running? && s.queue != [] {
      var rest := s.(queue := s.queue[1..]);
      TurnIs(s, a.line);
      IdlesPending(rest, disk);
      IdlesHandle(ApplyPending(rest), disk, s.queue[0], a.line);
    }
  }

  /** Without a file to write to nothing is written at all. */
  lemma {:induction false} NothingWritten(cfg: Config, disk: Disk, actions: seq<Action>)
    requires Fileless(cfg) && forall a | a in actions && a.DoConfigure? :: Fileless(a.cfg)
    ensures var s := Run(Initial(cfg, disk), actions);
            s.disk == disk && s.stats.recordsWritten == 0 && Idles(s, disk)
  {
    if actions != [] {
      var n := |actions| - 1;
      NothingWritten(cfg, disk, actions[..n]);
      IdlesStep(Run(Initial(cfg, disk), actions[..n]), disk, actions[n]);
    }
  }
}
