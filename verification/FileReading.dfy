/** The file reader object (engine/file_reader.py); an iterator is run to its end. */
module FileReading {
  import opened Framing
  import opened LineControls
  import opened RowSelection

  datatype Snapshot = Snapshot(total: nat, data: nat, valid: nat, invalid: nat, processed: nat, completed: bool)

  class FileReader {
    const file: File
    const hasHeader: bool
    var header: Option<seq<string>>
    var headerRaw: Option<string>
    var expected: Option<nat>
    var snapshot: Snapshot

    constructor (file: File, hasHeader: bool)
      ensures this.file == file && this.hasHeader == hasHeader && Learnt(0)
    {
      this.file, this.hasHeader := file, hasHeader;
      header, headerRaw, expected := None, None, None;
      snapshot := Snapshot(0, 0, 0, 0, 0, false);
    }

    /** What is known of the columns after the first `n` rows. */
    ghost predicate Learnt(n: nat)
      requires n <= |file.rows|
      reads this
    {
      header == (if hasHeader && n > 0 then Some(file.rows[0].fields) else None) &&
      expected == (if n > 0 then Some(|file.rows[0].fields|) else None)
    }

    method ResetScanState()
      modifies this
      ensures Learnt(0) && headerRaw == None && snapshot == Snapshot(0, 0, 0, 0, 0, false)
    {
      header, headerRaw, expected := None, None, None;
      snapshot := Snapshot(0, 0, 0, 0, 0, false);
    }

    /** The first row without a header sets the number of columns. */
    method IsValidDataRow(row: seq<string>) returns (valid: bool)
      modifies this`expected
      ensures if old(expected).None? then expected == Some(|row|) && valid
              else expected == old(expected) && valid == (|row| == expected.value)
    {
      if expected.None? {
        expected := Some(|row|);
        return true;
      }
      return |row| == expected.value;
    }

    /** The first row of a file with a header is the header; other rows may be valid data. */
    method TakeRow(i: nat) returns (valid: bool)
      requires i < |file.rows| && Learnt(i)
      modifies this`header, this`expected
      ensures Learnt(i + 1) && valid == IsValid(file.rows, hasHeader, i)
    {
      var row := file.rows[i].fields;
      if hasHeader && header.None? {
        header, expected := Some(row), Some(|row|);
        return false;
      }
      valid := IsValidDataRow(row);
    }

    method ScanFile() returns (result: Snapshot)
      modifies this
      ensures var n := |file.rows|;
              var valid := |ValidRows(file.rows, hasHeader, n)|;
              valid <= DataRows(hasHeader, n) &&
              result == snapshot == Snapshot(n, DataRows(hasHeader, n), valid, DataRows(hasHeader, n) - valid, n, true)
      ensures Learnt(|file.rows|)
    {
      ResetScanState();
      var total, data, valid, invalid := 0, 0, 0, 0;
      for i := 0 to |file.rows|
        invariant total == i && data == DataRows(hasHeader, i) && valid + invalid == data
        invariant valid == |ValidRows(file.rows, hasHeader, i)|
        invariant Learnt(i)
      {
        var row := file.rows[i].fields;
        ValidMore(file.rows, hasHeader, i);
        total := total + 1;
        if hasHeader && header.None? {
          header, expected := Some(row), Some(|row|);
          snapshot := Snapshot(total, data, valid, invalid, file.StartLine(i) + 1, false);
          continue;
        }
        data := data + 1;
        var ok := IsValidDataRow(row);
        if ok {
          valid := valid + 1;
        } else {
          invalid := invalid + 1;
        }
        snapshot := Snapshot(total, data, valid, invalid, file.StartLine(i) + 1, false);
      }
      snapshot := Snapshot(total, data, valid, invalid, total, true);
      return snapshot;
    }

    /** The first data rows with the verdicts that a scan would give them. */
    method LoadPreview(limit: int) returns (preview: seq<PreviewRow>)
      modifies this
      ensures preview <= Verdicts(file, hasHeader, |file.rows|)
      ensures var all := |Verdicts(file, hasHeader, |file.rows|)|;
              |preview| == if limit <= 0 then 0 else if limit < all then limit else all
    {
      if limit <= 0 {
        return [];
      }
      ResetScanState();
      preview := [];
      for i := 0 to |file.rows|
        invariant preview == Verdicts(file, hasHeader, i) && |preview| < limit && Learnt(i)
      {
        var row := file.rows[i].fields;
        if hasHeader && header.None? {
          header, expected := Some(row), Some(|row|);
          continue;
        }
        var valid := IsValidDataRow(row);
        preview := preview + [PreviewRow(file.StartLine(i) + 1, row, valid)];
        if |preview| >= limit {
          VerdictsPrefix(file, hasHeader, i + 1, |file.rows|);
          break;
        }
      }
    }

    method IterValidRows(c: Controls) returns (out: seq<RowRecord>, error: Option<ControlError>)
      modifies this
      ensures error == c.Check()
      ensures error.None? ==> out == SelectedRows(file.rows, hasHeader, c, |file.rows|)
      ensures error.Some? ==> out == [] && unchanged(this)
    {
      out, error := [], c.Check();
      if error.Some? {
        return;
      }
      ResetScanState();
      var line, emitted := 0, 0;
      for i := 0 to |file.rows|
        invariant line == |ValidRows(file.rows, hasHeader, i)| && emitted == |out| && Learnt(i)
        invariant out == SelectedRows(file.rows, hasHeader, c, i)
      {
        var row := file.rows[i].fields;
        var valid := TakeRow(i);
        if !valid {
          SkipsInvalid(file.rows, hasHeader, i);
          continue;
        }
        line := line + 1;
        SelectNext(file.rows, hasHeader, c, i, line);
        if !Selected(line, c) {
          if c.end.Some? && line > c.end.value {
            StopsRightly(file.rows, hasHeader, c, i);
            break;
          }
          continue;
        }
        if c.firstN.Some? && emitted >= c.firstN.value {
          StopsRightly(file.rows, hasHeader, c, i);
          break;
        }
        emitted := emitted + 1;
        out := out + [RowRecord(line, row)];
      }
    }

    method IterValidRawRows(c: Controls) returns (out: seq<RawRowRecord>, error: Option<ControlError>)
      requires file.Valid()
      modifies this
      ensures error == c.Check()
      ensures error.None? ==> out == SelectedRaw(file, hasHeader, c, |file.rows|)
      ensures error.None? ==> headerRaw == if hasHeader && file.rows != [] then Some(file.RawText(0)) else None
      ensures error.Some? ==> out == [] && unchanged(this)
    {
      out, error := [], c.Check();
      if error.Some? {
        return;
      }
      ResetScanState();
      var line, emitted := 0, 0;
      for i := 0 to |file.rows|
        invariant line == |ValidRows(file.rows, hasHeader, i)| && emitted == |out| && Learnt(i)
        invariant out == SelectedRaw(file, hasHeader, c, i)
        invariant headerRaw == if hasHeader && i > 0 then Some(file.RawText(0)) else None
      {
        var row, raw := file.rows[i].fields, file.RawText(i);
        if hasHeader && header.None? {
          headerRaw := Some(raw);
        }
        var valid := TakeRow(i);
        if !valid {
          SkipsInvalid(file.rows, hasHeader, i);
          continue;
        }
        line := line + 1;
        SelectNextRaw(file, hasHeader, c, i, line);
        if !Selected(line, c) {
          if c.end.Some? && line > c.end.value {
            StopsRightlyRaw(file, hasHeader, c, i);
            break;
          }
          continue;
        }
        if c.firstN.Some? && emitted >= c.firstN.value {
          StopsRightlyRaw(file, hasHeader, c, i);
          break;
        }
        emitted := emitted + 1;
        out := out + [RawRowRecord(line, row, raw)];
      }
    }
  }
}
