/** The sink writer object (engine/sink_writer.py), which carries out the steps in place. */
module SinkWriting {
  import opened Splitting
  import opened Framing
  import opened Rotation
  import opened S = SinkSteps

  class SinkWriter {
    var cfg: Config
    var queue: seq<Item>
    var queuedBytes: int
    var backpressured: bool
    var pending: Option<Config>
    var task: Task
    var file: Option<string>
    var disk: Disk
    var stats: Stats
    var events: seq<Event>
    ghost var past: History

    ghost function State(): Sink
      reads this
    {
      Sink(cfg, queue, queuedBytes, backpressured, pending, task, file, disk, stats, events, past)
    }

    constructor (cfg: Config, disk: Disk)
      ensures State() == Initial(cfg, disk)
    {
      this.cfg, this.disk := cfg, disk;
      queue, queuedBytes, backpressured := [], 0, false;
      pending, task, file := None, Idle, None;
      stats, events, past := Stats(0, 0, 0, 0, 0), [], History([], [], [cfg]);
    }

    method Submit(record: Record, src: string) returns (ok: bool)
      modifies this
      ensures (State(), ok) == S.Submit(old(State()), record, src)
    {
      if !cfg.enabled {
        return true;
      }
      var size := |record.payload|;
      if queuedBytes + size > cfg.queueMax {
        stats := stats.(recordsDropped := stats.recordsDropped + 1);
        events := events + [RecordDropped(src, size)];
        return false;
      }
      queuedBytes := queuedBytes + size;
      queue := queue + [Item(record, src, false)];
      past := past.(accepted := past.accepted + [Item(record, src, false)]);
      UpdateBackpressure();
      return true;
    }

    method UpdateBackpressure()
      modifies this
      ensures State() == S.UpdateBackpressure(old(State()))
    {
      if !backpressured && queuedBytes >= cfg.high {
        backpressured := true;
        events := events + [HighWatermark(queuedBytes)];
      } else if backpressured && queuedBytes <= cfg.low {
        backpressured := false;
        events := events + [LowWatermark(queuedBytes)];
      }
    }

    method Start()
      modifies this
      ensures State() == S.Start(old(State()))
    {
      if task != Idle {
        return;
      }
      task := Running;
      OpenFile();
      if file.Some? {
        events := events + [Started];
      }
    }

    method RequestStop()
      modifies this
      ensures State() == S.RequestStop(old(State()))
    {
      if task == Idle {
        return;
      }
      queue := queue + [StopSign];
    }

    method Join()
      modifies this
      ensures State() == S.Join(old(State()))
    {
      if task == Exited {
        task := Idle;
        file := None;
        events := events + [Stopped];
      }
    }

    method Configure(next: Config)
      modifies this
      ensures State() == S.Configure(old(State()), next)
    {
      if task == Idle {
        cfg := next;
        past := past.(configs := past.configs + [next]);
        return;
      }
      pending := Some(next);
      queue := queue + [WakeUp];
    }

    method ApplyPending()
      modifies this
      ensures State() == S.ApplyPending(old(State()))
    {
      if pending.None? {
        return;
      }
      var next := pending.value;
      pending := None;
      var pathChanged := next.path != cfg.path;
      var enabledChanged := next.enabled != cfg.enabled;
      cfg := next;
      past := past.(configs := past.configs + [next]);
      if pathChanged || enabledChanged {
        file := None;
        OpenFile();
      }
      events := events + [Reconfigured];
    }

    method OpenFile()
      modifies this
      ensures State() == S.OpenFile(old(State()))
    {
      if !cfg.enabled || cfg.path.None? || cfg.path.value == "" {
        return;
      }
      var path := cfg.path.value;
      disk := disk[path := Opened(disk, path)];
      file := Some(path);
      stats := stats.(fileSize := |disk[path][0]|);
    }

    /** One turn of the drain loop. */
    method DrainOne(line: Bytes)
      requires FileReady(State())
      modifies this
      ensures State() == Drain(old(State()), line)
    {
      if task != Running || queue == [] {
        return;
      }
      var item := queue[0];
      queue := queue[1..];
      ApplyPending();
      if item.stop {
        task := Exited;
        file := None;
      } else if item.record.payload == [] && item.src == "" {
      } else if !cfg.enabled || file.None? {
        Release(item, None);
      } else {
        ghost var blob := Encode(cfg, item, line);
        WriteRecord(item, line);
        Release(item, Some(blob));
      }
    }

    /** The record leaves the queue's account. */
    method Release(item: Item, ghost written: Option<Bytes>)
      modifies this
      ensures State() == S.Release(old(State()), item, written)
    {
      queuedBytes := queuedBytes - |item.record.payload|;
      past := past.(done := past.done + [Outcome(item, |past.configs| - 1, written)]);
      UpdateBackpressure();
    }

    method WriteRecord(item: Item, line: Bytes)
      requires file.Some? && FileReady(State())
      modifies this
      ensures State() == S.WriteRecord(old(State()), item, line)
    {
      var blob := Encode(cfg, item, line);
      if stats.fileSize > 0 && stats.fileSize + |blob| > cfg.rotationMax {
        Rotate();
      }
      var path := file.value;
      disk := disk[path := disk[path][0 := disk[path][0] + blob]];
      stats := stats.(fileSize := stats.fileSize + |blob|, bytesWritten := stats.bytesWritten + |blob|,
                      recordsWritten := stats.recordsWritten + 1);
    }

    method Rotate()
      requires file.Some? && FileReady(State())
      modifies this
      ensures State() == RotateFile(old(State()))
    {
      var path := file.value;
      file := None;
      ShiftBackups(path);
      Overwrite(old(disk), path, disk[path], disk[path][0 := []]);
      disk := disk[path := disk[path][0 := []]];
      file := Some(path);
      stats := stats.(fileSize := 0, rotations := stats.rotations + 1);
      events := events + [FileRotated];
    }

    /** The renames of a rotation, oldest backup first, in place on the disk. */
    method ShiftBackups(path: string)
      requires path in disk && 0 in disk[path]
      modifies this`disk
      ensures path in disk && disk == old(disk)[path := disk[path]]
      ensures disk[path][0 := []] == Rotated(old(disk[path]), cfg.backups, [])
    {
      var n := cfg.backups;
      ghost var before := disk[path];
      if n > 0 {
        var i := n - 1;
        while i > 0
          invariant 0 <= i < n
          invariant path in disk && disk == old(disk)[path := disk[path]]
          invariant Descended(before, disk[path], n, i)
        {
          RenameStep(before, disk[path], n, i);
          if i in disk[path] {
            Overwrite(old(disk), path, disk[path], Renamed(disk[path], i, i + 1));
            Rename(path, i, i + 1);
          }
          i := i - 1;
        }
        RenamesDone(before, disk[path], n);
        Overwrite(old(disk), path, disk[path], Renamed(disk[path], 0, 1));
        Rename(path, 0, 1);
      } else {
        NoBackups(before);
        disk := disk[path := disk[path] - {0}];
      }
    }

    /** `os.replace`: slot `src` becomes slot `dst`. */
    method Rename(path: string, src: nat, dst: nat)
      requires path in disk && src in disk[path] && src != dst
      modifies this`disk
      ensures disk == old(disk)[path := Renamed(old(disk[path]), src, dst)]
    {
      disk := disk[path := disk[path][dst := disk[path][src]] - {src}];
    }
  }

  function Renamed<T>(slots: Slots<T>, src: nat, dst: nat): Slots<T>
    requires src in slots
  {
    slots[dst := slots[src]] - {src}
  }

  /** The slot whose file slot `j` holds after the renames from slot `n - 1` down to slot `i + 1`, or -1. */
  function Origin<T>(before: Slots<T>, n: nat, i: nat, j: nat): (from: int)
    ensures from == -1 || (0 <= from && from in before)
  {
    if j <= i || j > n || i + 1 == n then (if j in before then j else -1)
    else if j == i + 1 then -1
    else Source(before, n, j)
  }

  ghost predicate Placed<T>(before: Slots<T>, slots: Slots<T>, n: nat, i: nat, j: nat) {
    var from := Origin(before, n, i, j);
    (j in slots <==> from != -1) && (j in slots ==> slots[j] == before[from])
  }

  /** The slots after the renames from slot `n - 1` down to slot `i + 1`. */
  ghost predicate Descended<T>(before: Slots<T>, slots: Slots<T>, n: nat, i: nat) {
    forall j: nat :: Placed(before, slots, n, i, j)
  }

  lemma RenameStep<T>(before: Slots<T>, slots: Slots<T>, n: nat, i: nat)
    requires 0 < i < n && Descended(before, slots, n, i)
    ensures Descended(before, if i in slots then Renamed(slots, i, i + 1) else slots, n, i - 1)
  {
    var after := if i in slots then Renamed(slots, i, i + 1) else slots;
    var last := i - 1;
    forall j: nat ensures Placed(before, after, n, last, j) {
      assert Placed(before, slots, n, i, j);
      if j == i + 1 {
        assert Placed(before, slots, n, i, i);
      }
    }
  }

  lemma RenamesDone<T>(before: Slots<seq<T>>, slots: Slots<seq<T>>, n: nat)
    requires 0 in before && n > 0 && Descended(before, slots, n, 0)
    ensures 0 in slots && Renamed(slots, 0, 1)[0 := []] == Rotated(before, n, [])
  {
    assert Placed(before, slots, n, 0, 0);
    var after := Renamed(slots, 0, 1)[0 := []];
    forall j: nat
      ensures j in after <==> j in Rotated(before, n, [])
      ensures j in after ==> after[j] == Rotated(before, n, [])[j]
    {
      RotatedAt(before, n, [], j);
      assert Placed(before, slots, n, 0, j);
      if j == 1 {
        assert Placed(before, slots, n, 0, 0);
      }
    }
  }

  lemma NoBackups<T>(before: Slots<seq<T>>)
    requires 0 in before
    ensures (before - {0})[0 := []] == Rotated(before, 0, [])
  {
    forall j: nat
      ensures j in before[0 := []] <==> j in Rotated(before, 0, [])
      ensures j in before[0 := []] ==> before[0 := []][j] == Rotated(before, 0, [])[j]
    {
      RotatedAt(before, 0, [], j);
    }
    assert (before - {0})[0 := []] == before[0 := []];
  }

  lemma Overwrite<K, V>(m: map<K, V>, k: K, v: V, w: V)
    ensures m[k := v][k := w] == m[k := w]
  {
  }
}
