/** What holds of the sink writer in every run, whatever the order of its steps. */
module SinkRuns {
  import opened Splitting
  import opened Framing
  import opened Rotation
  import opened SinkSteps

  datatype Action =
    | DoStart | DoRequestStop | DoJoin
    | DoConfigure(cfg: Config)
    | DoSubmit(record: Record, src: string)
    | DoDrain(line: Bytes)

  function Apply(s: Sink, a: Action): (after: Sink)
    requires FileReady(s)
    ensures FileReady(after)
  {
    match a
    case DoStart => Start(s)
    case DoRequestStop => RequestStop(s)
    case DoJoin => Join(s)
    case DoConfigure(cfg) => Configure(s, cfg)
    case DoSubmit(record, src) => Submit(s, record, src).0
    case DoDrain(line) => Drain(s, line)
  }

  function Run(s: Sink, actions: seq<Action>): (after: Sink)
    requires FileReady(s)
    ensures FileReady(after)
  {
    if actions == [] then s
    else Apply(Run(s, actions[..|actions| - 1]), actions[|actions| - 1])
  }

  lemma {:induction false} RunAfter(s: Sink, a: Action, actions: seq<Action>)
    requires FileReady(s)
    ensures Run(s, [a] + actions) == Run(Apply(s, a), actions)
  {
    HeadSlice(a, actions);
    if actions != [] {
      RunAfter(s, a, actions[..|actions| - 1]);
    }
  }

  /** Configurations have passed their checks. */
  ghost predicate Legal(a: Action) {
    a.DoConfigure? ==> a.cfg.Valid()
  }

  // ----- The queue's account ---------------------------------------------

  function QueuedPayload(items: seq<Item>): nat {
    if items == [] then 0 else |items[0].record.payload| + QueuedPayload(items[1..])
  }

  lemma {:induction false} QueuedPayloadAppend(items: seq<Item>, item: Item)
    ensures QueuedPayload(items + [item]) == QueuedPayload(items) + |item.record.payload|
  {
    if items != [] {
      QueuedPayloadAppend(items[1..], item);
      assert (items + [item])[1..] == items[1..] + [item];
    }
  }

  ghost predicate ConfigsValid(s: Sink) {
    s.cfg.Valid() && (s.pending.Some? ==> s.pending.value.Valid())
  }

  ghost predicate SignsEmpty(items: seq<Item>) {
    forall item | item in items && IsControl(item) :: item.record.payload == []
  }

  /** Applying a pending configuration leaves the queue and its history alone. */
  lemma PendingFrame(s: Sink)
    ensures var t := ApplyPending(s);
            t.queue == s.queue && t.queuedBytes == s.queuedBytes && t.backpressured == s.backpressured &&
            t.task == s.task && t.past.accepted == s.past.accepted && t.past.done == s.past.done &&
            t.cfg == (if s.pending.Some? then s.pending.value else s.cfg) && t.pending.None?
  {
  }

  /** Starting, stopping and reconfiguring at most append a sign to the queue. */
  lemma ControlFrame(s: Sink, a: Action)
    requires FileReady(s) && !a.DoSubmit? && !a.DoDrain?
    ensures var t := Apply(s, a);
            t.past.accepted == s.past.accepted && t.past.done == s.past.done &&
            t.queuedBytes == s.queuedBytes && t.backpressured == s.backpressured &&
            (t.queue == s.queue || t.queue == s.queue + [StopSign] || t.queue == s.queue + [WakeUp])
  {
  }

  /** `queued_bytes` is what is in the queue, and backpressure needs queued bytes. */
  ghost predicate Balanced(s: Sink) {
    ConfigsValid(s) && SignsEmpty(s.queue) &&
    s.queuedBytes == QueuedPayload(s.queue) &&
    (s.backpressured ==> s.queuedBytes > 0)
  }

  lemma BalancedRelease(s: Sink, item: Item, written: Option<Bytes>)
    requires ConfigsValid(s) && SignsEmpty(s.queue)
    requires s.queuedBytes == |item.record.payload| + QueuedPayload(s.queue)
    requires s.backpressured ==> s.queuedBytes > 0
    ensures Balanced(Release(s, item, written))
  {
  }

  lemma BalancedHandle(s: Sink, item: Item, line: Bytes)
    requires FileReady(s) && ConfigsValid(s) && SignsEmpty(s.queue)
    requires IsControl(item) ==> item.record.payload == []
    requires s.queuedBytes == |item.record.payload| + QueuedPayload(s.queue)
    requires s.backpressured ==> s.queuedBytes > 0
    ensures Balanced(Handle(s, item, line))
  {
    if !IsControl(item) {
      var (t, blob) := Persist(s, item, line);
      BalancedRelease(t, item, blob);
    }
  }

  lemma BalancedDrain(s: Sink, line: Bytes)
    requires FileReady(s) && Balanced(s)
    ensures Balanced(Drain(s, line))
  {
    if s.task.Running? && s.queue != [] {
      var rest := s.(queue := s.queue[1..]);
      PendingFrame(rest);
      BalancedHandle(ApplyPending(rest), s.queue[0], line);
    }
  }

  lemma BalancedSubmit(s: Sink, record: Record, src: string)
    requires Balanced(s)
    ensures Balanced(Submit(s, record, src).0)
  {
    QueuedPayloadAppend(s.queue, Item(record, src, false));
  }

  lemma BalancedStep(s: Sink, a: Action)
    requires FileReady(s) && Balanced(s) && Legal(a)
    ensures Balanced(Apply(s, a))
  {
    if a.DoSubmit? {
      BalancedSubmit(s, a.record, a.src);
    } else if a.DoDrain? {
      BalancedDrain(s, a.line);
    } else {
      BalancedControl(s, a);
    }
  }

  lemma BalancedControl(s: Sink, a: Action)
    requires FileReady(s) && Balanced(s) && Legal(a) && !a.DoSubmit? && !a.DoDrain?
    ensures Balanced(Apply(s, a))
  {
    ControlFrame(s, a);
    QueuedPayloadAppend(s.queue, StopSign);
    QueuedPayloadAppend(s.queue, WakeUp);
  }

  // ----- Watermark events ------------------------------------------------

  /** The watermark events, high as true and low as false. */
  function Watermarks(events: seq<Event>): seq<bool> {
    if events == [] then []
    else
      var earlier := Watermarks(events[..|events| - 1]);
      match events[|events| - 1]
      case HighWatermark(_) => earlier + [true]
      case LowWatermark(_) => earlier + [false]
      case _ => earlier
  }

  /** High, low, high, ... and backpressured exactly after a high. */
  ghost predicate Alternating(marks: seq<bool>, backpressured: bool) {
    (forall i | 0 <= i < |marks| :: marks[i] == (i % 2 == 0)) &&
    (backpressured <==> |marks| % 2 == 1)
  }

  lemma EmitMark(s: Sink, event: Event)
    ensures Watermarks(Emit(s, event).events) ==
              match event
              case HighWatermark(_) => Watermarks(s.events) + [true]
              case LowWatermark(_) => Watermarks(s.events) + [false]
              case _ => Watermarks(s.events)
  {
    assert Emit(s, event).events[..|s.events|] == s.events;
  }

  lemma UpdateAlternates(s: Sink)
    requires Alternating(Watermarks(s.events), s.backpressured)
    ensures var t := UpdateBackpressure(s);
            Alternating(Watermarks(t.events), t.backpressured)
  {
    AlternatingMore(Watermarks(s.events), !s.backpressured);
    if !s.backpressured {
      EmitMark(s.(backpressured := true), HighWatermark(s.queuedBytes));
    } else {
      EmitMark(s.(backpressured := false), LowWatermark(s.queuedBytes));
    }
  }

  lemma AlternatingMore(marks: seq<bool>, high: bool)
    requires Alternating(marks, !high)
    ensures Alternating(marks + [high], high)
  {
  }

  ghost predicate MarksAgree(s: Sink) {
    Alternating(Watermarks(s.events), s.backpressured)
  }

  /** Writing a record touches only the file, the statistics and the rotation event. */
  lemma PersistFrame(s: Sink, item: Item, line: Bytes)
    requires FileReady(s)
    ensures var t := Persist(s, item, line).0;
            t == s.(disk := t.disk, stats := t.stats, events := t.events) &&
            (t.events == s.events || t.events == s.events + [FileRotated])
  {
  }

  lemma MarksRelease(s: Sink, item: Item, written: Option<Bytes>)
    requires MarksAgree(s)
    ensures MarksAgree(Release(s, item, written))
  {
    UpdateAlternates(Settled(s, item, written));
  }

  lemma MarksHandle(s: Sink, item: Item, line: Bytes)
    requires FileReady(s) && MarksAgree(s)
    ensures MarksAgree(Handle(s, item, line))
  {
    if !IsControl(item) {
      var (t, blob) := Persist(s, item, line);
      PersistFrame(s, item, line);
      EmitMark(s, FileRotated);
      MarksRelease(t, item, blob);
    }
  }

  lemma MarksApplyPending(s: Sink)
    requires MarksAgree(s)
    ensures MarksAgree(ApplyPending(s))
  {
    EmitMark(s, Reconfigured);
  }

  lemma MarksSubmit(s: Sink, record: Record, src: string)
    requires MarksAgree(s)
    ensures MarksAgree(Submit(s, record, src).0)
  {
    if s.queuedBytes + |record.payload| > s.cfg.queueMax {
      EmitMark(s, RecordDropped(src, |record.payload|));
    } else {
      UpdateAlternates(Enqueued(s, Item(record, src, false)));
    }
  }

  lemma MarksDrain(s: Sink, line: Bytes)
    requires FileReady(s) && MarksAgree(s)
    ensures MarksAgree(Drain(s, line))
  {
    if s.task.Running? && s.queue != [] {
      var t := s.(queue := s.queue[1..]);
      MarksApplyPending(t);
      MarksHandle(ApplyPending(t), s.queue[0], line);
    }
  }

  lemma MarksStart(s: Sink)
    requires MarksAgree(s)
    ensures MarksAgree(Start(s))
  {
    EmitMark(s, Started);
  }

  lemma MarksJoin(s: Sink)
    requires MarksAgree(s)
    ensures MarksAgree(Join(s))
  {
    EmitMark(s, Stopped);
  }

  lemma MarksStep(s: Sink, a: Action)
    requires FileReady(s) && MarksAgree(s)
    ensures MarksAgree(Apply(s, a))
  {
    match a
    case DoStart => MarksStart(s);
    case DoRequestStop =>
    case DoJoin => MarksJoin(s);
    case DoConfigure(_) =>
    case DoSubmit(record, src) => MarksSubmit(s, record, src);
    case DoDrain(line) => MarksDrain(s, line);
  }

  // ----- The open file ---------------------------------------------------

  /** While the loop runs, the open file is the configured one and its recorded size is real. */
  ghost predicate FileInForce(s: Sink) {
    s.file == (if s.task.Running? then s.cfg.Target() else None) &&
    FileReady(s) && (s.file.Some? ==> s.stats.fileSize == |s.disk[s.file.value][0]|)
  }

  lemma FileApplyPending(s: Sink)
    requires FileInForce(s) && s.task.Running?
    ensures FileInForce(ApplyPending(s)) && ApplyPending(s).task.Running?
  {
  }

  lemma FileHandle(s: Sink, item: Item, line: Bytes)
    requires FileInForce(s) && s.task.Running?
    ensures FileInForce(Handle(s, item, line))
  {
    if !IsControl(item) && s.file.Some? {
      RotatedAt(s.disk[s.file.value], s.cfg.backups, [], 0);
      var t := WriteRecord(s, item, line);
      assert FileInForce(t);
    }
  }

  lemma FileDrain(s: Sink, line: Bytes)
    requires FileInForce(s)
    ensures FileInForce(Drain(s, line))
  {
    if s.task.Running? && s.queue != [] {
      var t := s.(queue := s.queue[1..]);
      FileApplyPending(t);
      FileHandle(ApplyPending(t), s.queue[0], line);
    }
  }

  lemma FileStep(s: Sink, a: Action)
    requires FileInForce(s)
    ensures FileInForce(Apply(s, a))
  {
    if a.DoDrain? {
      FileDrain(s, a.line);
    }
  }

  // ----- Exactly once, in order ------------------------------------------

  /** The items that the drain loop takes for records. */
  function Kept(items: seq<Item>): seq<Item> {
    if items == [] then []
    else (if IsControl(items[0]) then [] else [items[0]]) + Kept(items[1..])
  }

  function Items(done: seq<Outcome>): seq<Item> {
    if done == [] then [] else Items(done[..|done| - 1]) + [done[|done| - 1].item]
  }

  lemma {:induction false} KeptAppend(a: seq<Item>, b: seq<Item>)
    ensures Kept(a + b) == Kept(a) + Kept(b)
  {
    if a == [] {
      assert a + b == b;
    } else {
      KeptAppend(a[1..], b);
      assert (a + b)[1..] == a[1..] + b;
      Associative(if IsControl(a[0]) then [] else [a[0]], Kept(a[1..]), Kept(b));
    }
  }

  lemma ItemsAppend(done: seq<Outcome>, o: Outcome)
    ensures Items(done + [o]) == Items(done) + [o.item]
  {
    assert (done + [o])[..|done|] == done;
  }

  /** Every accepted record has been dealt with once or is still queued, in order. */
  ghost predicate Accounted(s: Sink) {
    Kept(s.past.accepted) == Items(s.past.done) + Kept(s.queue)
  }

  lemma AccountedRelease(s: Sink, item: Item, written: Option<Bytes>)
    requires Kept(s.past.accepted) == (Items(s.past.done) + [item]) + Kept(s.queue)
    ensures Accounted(Release(s, item, written))
  {
    ItemsAppend(s.past.done, Outcome(item, |s.past.configs| - 1, written));
  }

  lemma KeptHead(item: Item, items: seq<Item>)
    ensures Kept([item] + items) == (if IsControl(item) then [] else [item]) + Kept(items)
  {
    HeadTail(item, items);
  }

  lemma AccountedHandle(s: Sink, item: Item, line: Bytes)
    requires FileReady(s)
    requires Kept(s.past.accepted) == Items(s.past.done) + Kept([item] + s.queue)
    ensures Accounted(Handle(s, item, line))
  {
    KeptHead(item, s.queue);
    if IsControl(item) {
      assert [] + Kept(s.queue) == Kept(s.queue);
    } else {
      var (t, blob) := Persist(s, item, line);
      PersistFrame(s, item, line);
      Associative(Items(s.past.done), [item], Kept(s.queue));
      AccountedRelease(t, item, blob);
    }
  }

  lemma AccountedDrain(s: Sink, line: Bytes)
    requires FileReady(s) && Accounted(s)
    ensures Accounted(Drain(s, line))
  {
    if s.task.Running? && s.queue != [] {
      var rest := s.(queue := s.queue[1..]);
      HeadFirst(s.queue);
      PendingFrame(rest);
      AccountedHandle(ApplyPending(rest), s.queue[0], line);
    }
  }

  lemma AccountedSubmit(s: Sink, record: Record, src: string)
    requires Accounted(s)
    ensures Accounted(Submit(s, record, src).0)
  {
    var item := Item(record, src, false);
    KeptAppend(s.queue, [item]);
    KeptAppend(s.past.accepted, [item]);
    Associative(Items(s.past.done), Kept(s.queue), Kept([item]));
  }

  lemma AccountedStep(s: Sink, a: Action)
    requires FileReady(s) && Accounted(s)
    ensures Accounted(Apply(s, a))
  {
    if a.DoSubmit? {
      AccountedSubmit(s, a.record, a.src);
    } else if a.DoDrain? {
      AccountedDrain(s, a.line);
    } else {
      AccountedControl(s, a);
    }
  }

  lemma AccountedControl(s: Sink, a: Action)
    requires FileReady(s) && Accounted(s) && !a.DoSubmit? && !a.DoDrain?
    ensures Accounted(Apply(s, a))
  {
    ControlFrame(s, a);
    KeptControl(s.queue, StopSign);
    KeptControl(s.queue, WakeUp);
  }

  lemma KeptControl(items: seq<Item>, item: Item)
    requires IsControl(item)
    ensures Kept(items + [item]) == Kept(items)
  {
    KeptAppend(items, [item]);
    assert Kept([item]) == [] + Kept([item][1..]);
  }

  // ----- Which file a record goes to -------------------------------------

  /** The configuration in force is the last one; outcomes carry the one they were handled under. */
  ghost predicate Epochs(s: Sink) {
    var configs, done := s.past.configs, s.past.done;
    configs != [] && configs[|configs| - 1] == s.cfg &&
    (forall i | 0 <= i < |done| :: 0 <= done[i].epoch < |configs|) &&
    (forall i, j | 0 <= i < j < |done| :: done[i].epoch <= done[j].epoch)
  }

  /** A record is written exactly if its configuration has a file, and as that configuration says. */
  ghost predicate Faithful(o: Outcome, cfg: Config) {
    (o.written.Some? <==> cfg.Target().Some?) &&
    (o.written.Some? && cfg.format == Delimited ==> o.written.value == o.item.record.payload + cfg.separator)
  }

  ghost predicate AllFaithful(s: Sink) {
    Epochs(s) &&
    forall o | o in s.past.done :: 0 <= o.epoch < |s.past.configs| && Faithful(o, s.past.configs[o.epoch])
  }

  lemma FaithfulEnforce(s: Sink, cfg: Config)
    requires AllFaithful(s)
    ensures AllFaithful(Enforce(s, cfg))
  {
  }

  lemma FaithfulApplyPending(s: Sink)
    requires AllFaithful(s)
    ensures AllFaithful(ApplyPending(s))
  {
    if s.pending.Some? {
      FaithfulEnforce(s, s.pending.value);
      var t := Enforce(s, s.pending.value);
      assert ApplyPending(s).past == t.past && ApplyPending(s).cfg == t.cfg;
    }
  }

  lemma FaithfulRelease(s: Sink, item: Item, written: Option<Bytes>)
    requires AllFaithful(s)
    requires Faithful(Outcome(item, |s.past.configs| - 1, written), s.cfg)
    ensures AllFaithful(Release(s, item, written))
  {
    var t := Settled(s, item, written);
    assert t.past.done == s.past.done + [Outcome(item, |s.past.configs| - 1, written)];
    assert AllFaithful(t);
  }

  lemma FaithfulHandle(s: Sink, item: Item, line: Bytes)
    requires FileInForce(s) && s.task.Running? && AllFaithful(s)
    ensures AllFaithful(Handle(s, item, line))
  {
    if !IsControl(item) {
      PersistFrame(s, item, line);
      var (t, blob) := Persist(s, item, line);
      FaithfulRelease(t, item, blob);
    }
  }

  lemma FaithfulDrain(s: Sink, line: Bytes)
    requires FileInForce(s) && AllFaithful(s)
    ensures AllFaithful(Drain(s, line))
  {
    if s.task.Running? && s.queue != [] {
      var t := s.(queue := s.queue[1..]);
      FaithfulApplyPending(t);
      FileApplyPending(t);
      FaithfulHandle(ApplyPending(t), s.queue[0], line);
    }
  }

  lemma FaithfulFrame(s: Sink, t: Sink)
    requires AllFaithful(s) && t.cfg == s.cfg && t.past.configs == s.past.configs && t.past.done == s.past.done
    ensures AllFaithful(t)
  {
  }

  lemma FaithfulStep(s: Sink, a: Action)
    requires FileInForce(s) && AllFaithful(s)
    ensures AllFaithful(Apply(s, a))
  {
    match a
    case DoStart => FaithfulFrame(s, Start(s));
    case DoRequestStop => FaithfulFrame(s, RequestStop(s));
    case DoJoin => FaithfulFrame(s, Join(s));
    case DoConfigure(cfg) =>
      if s.task.Idle? { FaithfulEnforce(s, cfg); } else { FaithfulFrame(s, Configure(s, cfg)); }
    case DoSubmit(record, src) => FaithfulFrame(s, Submit(s, record, src).0);
    case DoDrain(line) => FaithfulDrain(s, line);
  }

  // ----- What each file holds --------------------------------------------

  /** The files of `path` after one outcome under a configuration. */
  function Stored(slots: Slots<Bytes>, path: string, cfg: Config, written: Option<Bytes>): (after: Slots<Bytes>)
    requires 0 in slots
    ensures 0 in after
  {
    if written.Some? && cfg.Target() == Some(path) then WriteBlob(slots, cfg.backups, cfg.rotationMax, written.value)
    else slots
  }

  /** The files of `path` after the written outcomes, one by one, under their configurations. */
  function Replay(slots: Slots<Bytes>, path: string, configs: seq<Config>, done: seq<Outcome>): (after: Slots<Bytes>)
    requires 0 in slots && forall o | o in done :: 0 <= o.epoch < |configs|
    ensures 0 in after
  {
    if done == [] then slots
    else
      var n := |done| - 1;
      Stored(Replay(slots, path, configs, done[..n]), path, configs[done[n].epoch], done[n].written)
  }

  lemma {:induction false} ReplayMoreConfigs(slots: Slots<Bytes>, path: string, configs: seq<Config>, cfg: Config, done: seq<Outcome>)
    requires 0 in slots && forall o | o in done :: 0 <= o.epoch < |configs|
    ensures Replay(slots, path, configs + [cfg], done) == Replay(slots, path, configs, done)
  {
    if done != [] {
      ReplayMoreConfigs(slots, path, configs, cfg, done[..|done| - 1]);
    }
  }

  /** Every path's files are the initial ones with exactly that path's records written to them. */
  ghost predicate DiskReplays(disk: Disk, s: Sink) {
    AllFaithful(s) &&
    forall path :: Opened(s.disk, path) == Replay(Opened(disk, path), path, s.past.configs, s.past.done)
  }

  lemma ReplayFrame(disk: Disk, s: Sink, t: Sink)
    requires DiskReplays(disk, s)
    requires t.cfg == s.cfg && t.past.configs == s.past.configs && t.past.done == s.past.done
    requires forall path :: Opened(t.disk, path) == Opened(s.disk, path)
    ensures DiskReplays(disk, t)
  {
  }

  lemma ReplayEnforce(disk: Disk, s: Sink, cfg: Config)
    requires DiskReplays(disk, s)
    ensures DiskReplays(disk, Enforce(s, cfg))
  {
    FaithfulEnforce(s, cfg);
    forall path ensures Replay(Opened(disk, path), path, s.past.configs + [cfg], s.past.done)
                     == Replay(Opened(disk, path), path, s.past.configs, s.past.done)
    {
      ReplayMoreConfigs(Opened(disk, path), path, s.past.configs, cfg, s.past.done);
    }
  }

  lemma OpenFileKeeps(s: Sink)
    ensures var t := OpenFile(s);
            t.cfg == s.cfg && t.past == s.past && forall path :: Opened(t.disk, path) == Opened(s.disk, path)
  {
  }

  lemma ReplayApplyPending(disk: Disk, s: Sink)
    requires DiskReplays(disk, s)
    ensures DiskReplays(disk, ApplyPending(s))
  {
    if s.pending.Some? {
      var t := Enforce(s.(pending := None), s.pending.value);
      ReplayEnforce(disk, s.(pending := None), s.pending.value);
      OpenFileKeeps(t.(file := None));
      ReplayFrame(disk, t, ApplyPending(s));
    }
  }

  /** A written record changes the open path as `WriteBlob` says, and no other path. */
  lemma PersistWrites(s: Sink, item: Item, line: Bytes, path: string)
    requires FileInForce(s) && s.task.Running?
    ensures var (t, blob) := Persist(s, item, line);
            Opened(t.disk, path) == Stored(Opened(s.disk, path), path, s.cfg, blob)
  {
    if s.file.Some? {
      RotatedAt(s.disk[s.file.value], s.cfg.backups, [], 0);
    }
  }

  /** A record that is dealt with leaves the configuration alone and its outcome behind. */
  lemma HandleFrame(s: Sink, item: Item, line: Bytes)
    requires FileReady(s) && !IsControl(item)
    ensures var (t, blob) := Persist(s, item, line);
            var after := Handle(s, item, line);
            after.past.done == s.past.done + [Outcome(item, |s.past.configs| - 1, blob)] &&
            after.past.configs == s.past.configs && after.cfg == s.cfg && after.disk == t.disk && after.stats == t.stats
  {
    PersistFrame(s, item, line);
  }

  lemma ReplayMore(slots: Slots<Bytes>, path: string, configs: seq<Config>, done: seq<Outcome>, o: Outcome)
    requires 0 in slots && (forall p | p in done :: 0 <= p.epoch < |configs|) && 0 <= o.epoch < |configs|
    ensures Replay(slots, path, configs, done + [o]) ==
              Stored(Replay(slots, path, configs, done), path, configs[o.epoch], o.written)
  {
    assert (done + [o])[..|done|] == done;
  }

  lemma ReplayOutcome(disk: Disk, s: Sink, t: Sink, o: Outcome)
    requires DiskReplays(disk, s) && AllFaithful(t)
    requires t.past.configs == s.past.configs && t.past.done == s.past.done + [o] && o.epoch == |s.past.configs| - 1
    requires forall path :: Opened(t.disk, path) == Stored(Opened(s.disk, path), path, s.cfg, o.written)
    ensures DiskReplays(disk, t)
  {
    forall path ensures Opened(t.disk, path) == Replay(Opened(disk, path), path, t.past.configs, t.past.done) {
      ReplayMore(Opened(disk, path), path, s.past.configs, s.past.done, o);
    }
  }

  lemma ReplayHandle(disk: Disk, s: Sink, item: Item, line: Bytes)
    requires FileInForce(s) && s.task.Running? && DiskReplays(disk, s)
    ensures DiskReplays(disk, Handle(s, item, line))
  {
    if !IsControl(item) {
      FaithfulHandle(s, item, line);
      HandleFrame(s, item, line);
      var (t, blob) := Persist(s, item, line);
      forall path ensures Opened(t.disk, path) == Stored(Opened(s.disk, path), path, s.cfg, blob) {
        PersistWrites(s, item, line, path);
      }
      ReplayOutcome(disk, s, Handle(s, item, line), Outcome(item, |s.past.configs| - 1, blob));
    } else {
      ReplayFrame(disk, s, Handle(s, item, line));
    }
  }

  lemma ReplayDrain(disk: Disk, s: Sink, line: Bytes)
    requires FileInForce(s) && DiskReplays(disk, s)
    ensures DiskReplays(disk, Drain(s, line))
  {
    if s.task.Running? && s.queue != [] {
      var t := s.(queue := s.queue[1..]);
      ReplayFrame(disk, s, t);
      ReplayApplyPending(disk, t);
      FileApplyPending(t);
      ReplayHandle(disk, ApplyPending(t), s.queue[0], line);
    }
  }

  lemma ReplayStart(disk: Disk, s: Sink)
    requires DiskReplays(disk, s)
    ensures DiskReplays(disk, Start(s))
  {
    OpenFileKeeps(s.(task := Running));
    ReplayFrame(disk, s, Start(s));
  }

  lemma ReplayStep(disk: Disk, s: Sink, a: Action)
    requires FileInForce(s) && DiskReplays(disk, s)
    ensures DiskReplays(disk, Apply(s, a))
  {
    match a
    case DoStart => ReplayStart(disk, s);
    case DoRequestStop => ReplayFrame(disk, s, RequestStop(s));
    case DoJoin => ReplayFrame(disk, s, Join(s));
    case DoConfigure(cfg) =>
      if s.task.Idle? { ReplayEnforce(disk, s, cfg); } else { ReplayFrame(disk, s, Configure(s, cfg)); }
    case DoSubmit(record, src) => ReplayFrame(disk, s, Submit(s, record, src).0);
    case DoDrain(line) => ReplayDrain(disk, s, line);
  }

  // ----- The statistics --------------------------------------------------

  /** Everything written, to whatever path. */
  function Blobs(done: seq<Outcome>): seq<Bytes> {
    if done == [] then []
    else
      var n := |done| - 1;
      Blobs(done[..n]) + if done[n].written.Some? then [done[n].written.value] else []
  }

  /** The counters of records and bytes written are right. */
  ghost predicate Counted(s: Sink) {
    s.stats.recordsWritten == |Blobs(s.past.done)| && s.stats.bytesWritten == TotalLength(Blobs(s.past.done))
  }

  lemma BlobsMore(done: seq<Outcome>, o: Outcome)
    ensures Blobs(done + [o]) == Blobs(done) + if o.written.Some? then [o.written.value] else []
    ensures TotalLength(Blobs(done + [o])) == TotalLength(Blobs(done)) + if o.written.Some? then |o.written.value| else 0
  {
    assert (done + [o])[..|done|] == done;
    if o.written.Some? {
      TotalLengthAppend(Blobs(done), [o.written.value]);
      assert TotalLength([o.written.value]) == |o.written.value|;
    } else {
      assert Blobs(done) + [] == Blobs(done);
    }
  }

  lemma PersistCounts(s: Sink, item: Item, line: Bytes)
    requires FileReady(s)
    ensures var (t, blob) := Persist(s, item, line);
            t.stats.recordsWritten == s.stats.recordsWritten + (if blob.Some? then 1 else 0) &&
            t.stats.bytesWritten == s.stats.bytesWritten + (if blob.Some? then |blob.value| else 0)
  {
  }

  lemma CountedHandle(s: Sink, item: Item, line: Bytes)
    requires FileReady(s) && Counted(s)
    ensures Counted(Handle(s, item, line))
  {
    if !IsControl(item) {
      PersistCounts(s, item, line);
      HandleFrame(s, item, line);
      BlobsMore(s.past.done, Outcome(item, |s.past.configs| - 1, Persist(s, item, line).1));
    }
  }

  lemma CountedStep(s: Sink, a: Action)
    requires FileReady(s) && Counted(s)
    ensures Counted(Apply(s, a))
  {
    if a.DoDrain? {
      if s.task.Running? && s.queue != [] {
        CountedPending(s.(queue := s.queue[1..]));
        CountedHandle(ApplyPending(s.(queue := s.queue[1..])), s.queue[0], a.line);
      }
    } else {
      CountersFrame(s, a);
    }
  }

  lemma CountedPending(s: Sink)
    requires Counted(s)
    ensures Counted(ApplyPending(s))
  {
    PendingFrame(s);
  }

  lemma CountersFrame(s: Sink, a: Action)
    requires FileReady(s) && !a.DoDrain?
    ensures var t := Apply(s, a);
            t.past.done == s.past.done && t.stats.recordsWritten == s.stats.recordsWritten &&
            t.stats.bytesWritten == s.stats.bytesWritten
  {
  }

  /** A turn of the drain loop only adds events. */
  lemma DrainEvents(s: Sink, line: Bytes)
    requires FileReady(s)
    ensures |s.events| <= |Drain(s, line).events|
  {
    if s.task.Running? && s.queue != [] {
      var a := ApplyPending(s.(queue := s.queue[1..]));
      if !IsControl(s.queue[0]) {
        var (t, blob) := Persist(a, s.queue[0], line);
        assert |a.events| <= |t.events|;
      }
    }
  }
}
