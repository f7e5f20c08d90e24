/** The streaming selection and the scheduler's window are the same. */
module SelectionClaims {
  import opened Splitting
  import opened LineControls
  import opened RowSelection
  import opened SchedulerSteps

  /** The payloads of rows, under any encoding of their fields. */
  function Encoded(records: seq<RowRecord>, encode: seq<string> -> Bytes): seq<Bytes> {
    seq(|records|, i requires 0 <= i < |records| => encode(records[i].fields))
  }

  lemma WindowEncoded(records: seq<RowRecord>, encode: seq<string> -> Bytes, c: Controls)
    requires c.Check().None?
    ensures Window(Encoded(records, encode), c) == Encoded(Window(records, c), encode)
  {
    var n := |records|;
    var start := if c.start.Some? then c.start.value - 1 else 0;
    var end := if c.end.Some? && c.end.value < n then c.end.value else n;
    if start < n {
      assert Encoded(records, encode)[start..end] == Encoded(records[start..end], encode);
    }
  }

  /**
   Reading a file with line controls selects the rows that a scheduler with all valid rows of
   the file plays under the same controls; wrong controls are refused by both alike.
   */
  lemma StreamingIsScheduled(s: Scheduler, rows: seq<Row>, hasHeader: bool, encode: seq<string> -> Bytes, c: Controls)
    requires Checked(s) && s.source == Encoded(Numbered(rows, ValidRows(rows, hasHeader, |rows|)), encode)
    ensures var (t, error) := SetControls(s, c);
            error == c.Check() &&
            (error.None? ==> t.active == Encoded(SelectedRows(rows, hasHeader, c, |rows|), encode) && t.cursor == 0) &&
            (error.Some? ==> t == s)
  {
    if c.Check().None? {
      WindowEncoded(Numbered(rows, ValidRows(rows, hasHeader, |rows|)), encode, c);
    }
  }

  /** The selected rows carry consecutive line numbers within the controls, and are the valid rows of those numbers. */
  lemma SelectedLines(rows: seq<Row>, hasHeader: bool, c: Controls, k: nat)
    requires c.Check().None? && k < |SelectedRows(rows, hasHeader, c, |rows|)|
    ensures var selected, line := SelectedRows(rows, hasHeader, c, |rows|), StartLine(c) + k;
            selected[k].line == line && Selected(line, c) && (c.firstN.Some? ==> k < c.firstN.value) &&
            1 <= line <= |ValidRows(rows, hasHeader, |rows|)| &&
            selected[k].fields == rows[ValidRows(rows, hasHeader, |rows|)[line - 1]].fields
  {
    var numbered := Numbered(rows, ValidRows(rows, hasHeader, |rows|));
    WindowAt(numbered, c, k);
    assert numbered[StartLine(c) - 1 + k].line == StartLine(c) + k;
  }

  lemma AllSelected(rows: seq<Row>, hasHeader: bool)
    ensures |SelectedRows(rows, hasHeader, AllLines, |rows|)| == |ValidRows(rows, hasHeader, |rows|)|
  {
    var all := Numbered(rows, ValidRows(rows, hasHeader, |rows|));
    assert all[0..|all|] == all;
  }
}
