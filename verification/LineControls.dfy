/** Line controls: which data lines take part (engine/scheduler.py, engine/file_reader.py). */
module LineControls {
  import opened Framing

  datatype ControlError = BadStart | BadEnd | BadFirstN | EndBeforeStart | LineOutOfRange

  datatype Controls = Controls(start: Option<int>, end: Option<int>, firstN: Option<int>) {
    /** The check that raises on wrong controls. */
    function Check(): Option<ControlError> {
      if start.Some? && start.value < 1 then Some(BadStart)
      else if end.Some? && end.value < 1 then Some(BadEnd)
      else if firstN.Some? && firstN.value < 1 then Some(BadFirstN)
      else if start.Some? && end.Some? && end.value < start.value then Some(EndBeforeStart)
      else None
    }
  }

  const AllLines := Controls(None, None, None)

  /** The slice of the records that the controls select. */
  function Window<T>(records: seq<T>, c: Controls): seq<T>
    requires c.Check().None?
  {
    var n := |records|;
    var start := if c.start.Some? then c.start.value - 1 else 0;
    var end := if c.end.Some? && c.end.value < n then c.end.value else n;
    var filtered := if start >= n then [] else records[start..end];
    if c.firstN.Some? && c.firstN.value < |filtered| then filtered[..c.firstN.value] else filtered
  }

  /** The first line that the controls select. */
  function StartLine(c: Controls): int {
    if c.start.Some? then c.start.value else 1
  }

  /** Entry `k` of a window is the k-th entry from the start line on, within the end and the count. */
  lemma WindowAt<T>(records: seq<T>, c: Controls, k: nat)
    requires c.Check().None? && k < |Window(records, c)|
    ensures 0 <= StartLine(c) - 1 + k < |records| && Window(records, c)[k] == records[StartLine(c) - 1 + k]
    ensures (c.end.Some? ==> StartLine(c) + k <= c.end.value) && (c.firstN.Some? ==> k < c.firstN.value)
  {
    var n, from := |records|, StartLine(c) - 1;
    var end := if c.end.Some? && c.end.value < n then c.end.value else n;
    if from < n {
      var filtered, window := records[from..end], Window(records, c);
      assert window == filtered[..|window|];
      assert filtered[k] == records[from + k];
    }
  }
}
