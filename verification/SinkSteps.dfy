/**
 The steps of the background sink writer (engine/sink_writer.py) as functions of its state:
 a bounded queue with watermarks, a drain loop that writes to a rotating file, and live
 reconfiguration.  Each step is a stretch of code between two awaits.
 */
module SinkSteps {
  import opened Splitting
  import opened Framing
  import opened Rotation

  datatype Format = Delimited | Jsonl

  datatype Config = Config(
    enabled: bool, path: Option<string>, format: Format, separator: Bytes,
    rotationMax: nat, backups: nat, high: nat, low: nat, queueMax: nat)
  {
    /** The checks a configuration passes when it is built. */
    predicate Valid() {
      rotationMax > 0 && high > low && queueMax >= high
    }

    /** The file that records go to under this configuration, if any. */
    function Target(): Option<string> {
      if enabled && path.Some? && path.value != "" then path else None
    }
  }

  datatype Item = Item(record: Record, src: string, stop: bool)

  const WakeUp := Item(Record([], false), "", false)
  const StopSign := Item(Record([], false), "", true)

  /** Items the drain loop does not take for records. */
  predicate IsControl(item: Item) {
    item.stop || (item.record.payload == [] && item.src == "")
  }

  datatype Event =
    | Started | Stopped | Reconfigured | FileRotated
    | HighWatermark(queued: int) | LowWatermark(queued: int)
    | RecordDropped(src: string, length: nat)

  datatype Task = Idle | Running | Exited

  /** What became of a dequeued record: the blob it was written as, or nothing. */
  datatype Outcome = Outcome(item: Item, epoch: int, written: Option<Bytes>)

  type Disk = map<string, Slots<Bytes>>

  datatype Stats = Stats(recordsWritten: nat, bytesWritten: nat, rotations: nat, recordsDropped: nat, fileSize: nat)

  /** All items ever accepted, what became of the dequeued records, all configurations in force. */
  datatype History = History(accepted: seq<Item>, done: seq<Outcome>, configs: seq<Config>)

  /** The writer's fields, the files on disk, and the history. */
  datatype Sink = Sink(
    cfg: Config, queue: seq<Item>, queuedBytes: int, backpressured: bool,
    pending: Option<Config>, task: Task, file: Option<string>, disk: Disk,
    stats: Stats, events: seq<Event>, past: History)

  function Initial(cfg: Config, disk: Disk): Sink {
    Sink(cfg, [], 0, false, None, Idle, None, disk, Stats(0, 0, 0, 0, 0), [], History([], [], [cfg]))
  }

  // ----- Steps -----------------------------------------------------------

  function Emit(s: Sink, event: Event): Sink {
    s.(events := s.events + [event])
  }

  function UpdateBackpressure(s: Sink): Sink {
    if !s.backpressured && s.queuedBytes >= s.cfg.high
    then Emit(s.(backpressured := true), HighWatermark(s.queuedBytes))
    else if s.backpressured && s.queuedBytes <= s.cfg.low
    then Emit(s.(backpressured := false), LowWatermark(s.queuedBytes))
    else s
  }

  function Enqueued(s: Sink, item: Item): Sink {
    s.(queuedBytes := s.queuedBytes + |item.record.payload|, queue := s.queue + [item],
       past := s.past.(accepted := s.past.accepted + [item]))
  }

  function Submit(s: Sink, record: Record, src: string): (Sink, bool) {
    var size := |record.payload|;
    if !s.cfg.enabled then (s, true)
    else if s.queuedBytes + size > s.cfg.queueMax
    then (Emit(s.(stats := s.stats.(recordsDropped := s.stats.recordsDropped + 1)), RecordDropped(src, size)), false)
    else (UpdateBackpressure(Enqueued(s, Item(record, src, false))), true)
  }

  /** The slots of a path once its live file exists. */
  function Opened(disk: Disk, path: string): (slots: Slots<Bytes>)
    ensures 0 in slots
  {
    var slots := if path in disk then disk[path] else map[];
    if 0 in slots then slots else slots[0 := []]
  }

  /** The file of a running sink is where the path's slots are. */
  predicate FileReady(s: Sink) {
    s.file.Some? ==> s.file.value in s.disk && 0 in s.disk[s.file.value]
  }

  function OpenFile(s: Sink): (after: Sink)
    ensures FileReady(s) ==> FileReady(after)
  {
    var target := s.cfg.Target();
    if target.None? then s
    else
      var slots := Opened(s.disk, target.value);
      s.(file := target, disk := s.disk[target.value := slots], stats := s.stats.(fileSize := |slots[0]|))
  }

  function Start(s: Sink): Sink {
    if !s.task.Idle? then s
    else
      var begun := OpenFile(s.(task := Running));
      if begun.file.Some? then Emit(begun, Started) else begun
  }

  function RequestStop(s: Sink): Sink {
    if s.task.Idle? then s else s.(queue := s.queue + [StopSign])
  }

  /** `stop` goes on once the drain loop has exited. */
  function Join(s: Sink): Sink {
    if s.task.Exited? then Emit(s.(task := Idle, file := None), Stopped) else s
  }

  /** The configuration comes into force. */
  function Enforce(s: Sink, cfg: Config): Sink {
    s.(cfg := cfg, past := s.past.(configs := s.past.configs + [cfg]))
  }

  function Configure(s: Sink, cfg: Config): Sink {
    if s.task.Idle? then Enforce(s, cfg)
    else s.(pending := Some(cfg), queue := s.queue + [WakeUp])
  }

  function ApplyPending(s: Sink): (after: Sink)
    ensures FileReady(s) ==> FileReady(after)
  {
    if s.pending.None? then s
    else
      var next := s.pending.value;
      var changed := Enforce(s.(pending := None), next);
      var reopened := if next.path != s.cfg.path || next.enabled != s.cfg.enabled
                      then OpenFile(changed.(file := None)) else changed;
      Emit(reopened, Reconfigured)
  }

  /** `line` is the JSON line of this record, which only the JSONL format uses. */
  function Encode(cfg: Config, item: Item, line: Bytes): Bytes {
    if cfg.format == Delimited then item.record.payload + cfg.separator else line
  }

  function RotateFile(s: Sink): Sink
    requires s.file.Some? && FileReady(s)
  {
    var path := s.file.value;
    Emit(s.(disk := s.disk[path := Rotated(s.disk[path], s.cfg.backups, [])],
            stats := s.stats.(fileSize := 0, rotations := s.stats.rotations + 1)), FileRotated)
  }

  function Written(stats: Stats, length: nat): Stats {
    stats.(fileSize := stats.fileSize + length, bytesWritten := stats.bytesWritten + length,
           recordsWritten := stats.recordsWritten + 1)
  }

  function WriteRecord(s: Sink, item: Item, line: Bytes): Sink
    requires s.file.Some? && FileReady(s)
  {
    var path, blob := s.file.value, Encode(s.cfg, item, line);
    var ready := if s.stats.fileSize > 0 && s.stats.fileSize + |blob| > s.cfg.rotationMax then RotateFile(s) else s;
    assert 0 in ready.disk[path] by { RotatedAt(s.disk[path], s.cfg.backups, [], 0); }
    var slots := ready.disk[path];
    ready.(disk := ready.disk[path := slots[0 := slots[0] + blob]], stats := Written(ready.stats, |blob|))
  }

  /** Write the record where the configuration says, or drop it; and what was written. */
  function Persist(s: Sink, item: Item, line: Bytes): (result: (Sink, Option<Bytes>))
    requires FileReady(s)
    ensures FileReady(result.0)
  {
    if !s.cfg.enabled || s.file.None? then (s, None)
    else (WriteRecord(s, item, line), Some(Encode(s.cfg, item, line)))
  }

  function Settled(s: Sink, item: Item, written: Option<Bytes>): Sink {
    s.(queuedBytes := s.queuedBytes - |item.record.payload|,
       past := s.past.(done := s.past.done + [Outcome(item, |s.past.configs| - 1, written)]))
  }

  /** The record leaves the queue's account. */
  function Release(s: Sink, item: Item, written: Option<Bytes>): (after: Sink)
    ensures FileReady(s) ==> FileReady(after)
  {
    UpdateBackpressure(Settled(s, item, written))
  }

  /** What one turn of the drain loop does with a dequeued item. */
  function Handle(s: Sink, item: Item, line: Bytes): (after: Sink)
    requires FileReady(s)
    ensures FileReady(after)
  {
    if item.stop then s.(task := Exited, file := None)
    else if IsControl(item) then s
    else
      var (written, blob) := Persist(s, item, line);
      Release(written, item, blob)
  }

  /** One turn of the drain loop; it blocks on an empty queue. */
  function Drain(s: Sink, line: Bytes): (after: Sink)
    requires FileReady(s)
    ensures FileReady(after)
  {
    if !s.task.Running? || s.queue == [] then s
    else Handle(ApplyPending(s.(queue := s.queue[1..])), s.queue[0], line)
  }
}
