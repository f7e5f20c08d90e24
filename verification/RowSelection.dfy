/** The rows of a delimited file and the selections from them (engine/file_reader.py). */
module RowSelection {
  import opened Splitting
  import opened Framing
  import opened LineControls

  /** A parsed row, and the number of file lines consumed up to its end. */
  datatype Row = Row(endLine: nat, fields: seq<string>)

  /** A file: its lines, and the rows that the CSV reader makes of them. */
  datatype File = File(lines: seq<string>, rows: seq<Row>) {
    /** The reader consumes the lines in order. */
    predicate Valid() {
      (forall i | 0 <= i < |rows| :: rows[i].endLine <= |lines|) &&
      (forall i, j | 0 <= i < j < |rows| :: rows[i].endLine <= rows[j].endLine)
    }

    function StartLine(i: nat): nat
      requires i <= |rows|
    {
      if i == 0 then 0 else rows[i - 1].endLine
    }

    function RawText(i: nat): string
      requires Valid() && i < |rows|
    {
      assert i > 0 ==> rows[i - 1].endLine <= rows[i].endLine;
      Text(lines[StartLine(i)..rows[i].endLine])
    }
  }

  function Text(lines: seq<string>): string {
    if lines == [] then "" else Text(lines[..|lines| - 1]) + lines[|lines| - 1]
  }

  predicate IsHeader(hasHeader: bool, i: nat) {
    hasHeader && i == 0
  }

  /** A row is valid if it is as wide as the first row of the file. */
  predicate FitsFirst(rows: seq<Row>, i: nat)
    requires i < |rows|
  {
    |rows[i].fields| == |rows[0].fields|
  }

  predicate IsValid(rows: seq<Row>, hasHeader: bool, i: nat)
    requires i < |rows|
  {
    !IsHeader(hasHeader, i) && FitsFirst(rows, i)
  }

  /** The indices of the valid data rows among the first `n` rows. */
  function ValidRows(rows: seq<Row>, hasHeader: bool, n: nat): (valid: seq<nat>)
    requires n <= |rows|
    ensures forall k | 0 <= k < |valid| :: valid[k] < n && IsValid(rows, hasHeader, valid[k])
  {
    if n == 0 then []
    else ValidRows(rows, hasHeader, n - 1) + if IsValid(rows, hasHeader, n - 1) then [n - 1] else []
  }

  lemma ValidMore(rows: seq<Row>, hasHeader: bool, n: nat)
    requires n < |rows|
    ensures |ValidRows(rows, hasHeader, n + 1)| == |ValidRows(rows, hasHeader, n)| + if IsValid(rows, hasHeader, n) then 1 else 0
  {
  }

  /** How many of the first `n` rows are data. */
  function DataRows(hasHeader: bool, n: nat): nat {
    if hasHeader && n > 0 then n - 1 else n
  }

  predicate Selected(line: nat, c: Controls) {
    !(c.start.Some? && line < c.start.value) && !(c.end.Some? && line > c.end.value)
  }

  // ----- Windows of a growing list ---------------------------------------

  lemma SliceMore<T>(xs: seq<T>, x: T, i: nat)
    requires i <= |xs|
    ensures (xs + [x])[i..|xs| + 1] == xs[i..|xs|] + [x]
  {
  }

  /** The lines from the start to the end, before they are counted. */
  function Ranged<T>(xs: seq<T>, c: Controls): seq<T>
    requires c.Check().None?
  {
    Window(xs, c.(firstN := None))
  }

  lemma WindowRanged<T>(xs: seq<T>, c: Controls)
    requires c.Check().None?
    ensures var all := Ranged(xs, c);
            Window(xs, c) == if c.firstN.Some? && c.firstN.value < |all| then all[..c.firstN.value] else all
  {
  }

  lemma RangedMore<T>(xs: seq<T>, x: T, c: Controls)
    requires c.Check().None?
    ensures Ranged(xs + [x], c) == if Selected(|xs| + 1, c) then Ranged(xs, c) + [x] else Ranged(xs, c)
  {
    var n, start := |xs|, StartLine(c) - 1;
    if start < n {
      if Selected(n + 1, c) {
        SliceMore(xs, x, start);
      } else {
        SlicePrefix(xs, [x], start, c.end.value);
      }
    } else if start == n {
      SliceMore(xs, x, n);
      assert xs[n..n] == [];
    }
  }

  lemma FirstSame<T>(xs: seq<T>, x: T, n: nat)
    requires n <= |xs|
    ensures (xs + [x])[..n] == xs[..n]
  {
  }

  /** One more line joins the window if it is selected and the window is not full. */
  lemma WindowMore<T>(xs: seq<T>, x: T, c: Controls)
    requires c.Check().None?
    ensures var more := Selected(|xs| + 1, c) && !(c.firstN.Some? && |Window(xs, c)| >= c.firstN.value);
            Window(xs + [x], c) == Window(xs, c) + if more then [x] else []
  {
    var ranged := Ranged(xs, c);
    WindowRanged(xs, c);
    WindowRanged(xs + [x], c);
    RangedMore(xs, x, c);
    if c.firstN.Some? && c.firstN.value <= |ranged| {
      FirstSame(ranged, x, c.firstN.value);
      assert ranged[..|ranged|] == ranged;
    }
  }

  /** Nothing more can join. */
  predicate Full<T>(xs: seq<T>, c: Controls)
    requires c.Check().None?
  {
    (c.end.Some? && |xs| >= c.end.value) || (c.firstN.Some? && |Window(xs, c)| >= c.firstN.value)
  }

  lemma {:induction false} WindowFull<T>(xs: seq<T>, more: seq<T>, c: Controls)
    requires c.Check().None? && Full(xs, c)
    ensures Window(xs + more, c) == Window(xs, c) && Full(xs + more, c)
  {
    if more == [] {
      assert xs + more == xs;
    } else {
      var n := |more| - 1;
      WindowFull(xs, more[..n], c);
      WindowMore(xs + more[..n], more[n], c);
      assert xs + more == (xs + more[..n]) + [more[n]];
    }
  }

  // ----- Numbered rows ---------------------------------------------------

  datatype RowRecord = RowRecord(line: nat, fields: seq<string>)

  datatype RawRowRecord = RawRowRecord(line: nat, fields: seq<string>, raw: string)

  datatype PreviewRow = PreviewRow(rawRow: nat, fields: seq<string>, valid: bool)

  function Numbered(rows: seq<Row>, valid: seq<nat>): seq<RowRecord>
    requires forall k | 0 <= k < |valid| :: valid[k] < |rows|
  {
    seq(|valid|, k requires 0 <= k < |valid| => RowRecord(k + 1, rows[valid[k]].fields))
  }

  function NumberedRaw(file: File, valid: seq<nat>): seq<RawRowRecord>
    requires file.Valid() && forall k | 0 <= k < |valid| :: valid[k] < |file.rows|
  {
    seq(|valid|, k requires 0 <= k < |valid| => RawRowRecord(k + 1, file.rows[valid[k]].fields, file.RawText(valid[k])))
  }

  lemma {:induction false} ValidPrefix(rows: seq<Row>, hasHeader: bool, n: nat, m: nat)
    requires n <= m <= |rows|
    ensures ValidRows(rows, hasHeader, n) <= ValidRows(rows, hasHeader, m)
    decreases m
  {
    if n < m {
      ValidPrefix(rows, hasHeader, n, m - 1);
    }
  }

  lemma NumberedPrefix(rows: seq<Row>, a: seq<nat>, b: seq<nat>)
    requires a <= b && forall k | 0 <= k < |b| :: b[k] < |rows|
    ensures Numbered(rows, a) <= Numbered(rows, b)
  {
  }

  lemma NumberedRawPrefix(file: File, a: seq<nat>, b: seq<nat>)
    requires file.Valid() && a <= b && forall k | 0 <= k < |b| :: b[k] < |file.rows|
    ensures NumberedRaw(file, a) <= NumberedRaw(file, b)
  {
  }

  lemma WindowSettled<T>(xs: seq<T>, all: seq<T>, c: Controls)
    requires c.Check().None? && Full(xs, c) && xs <= all
    ensures Window(all, c) == Window(xs, c)
  {
    assert all == xs + all[|xs|..];
    WindowFull(xs, all[|xs|..], c);
  }

  /** The selected rows of a whole file. */
  function SelectedRows(rows: seq<Row>, hasHeader: bool, c: Controls, n: nat): seq<RowRecord>
    requires c.Check().None? && n <= |rows|
  {
    Window(Numbered(rows, ValidRows(rows, hasHeader, n)), c)
  }

  function SelectedRaw(file: File, hasHeader: bool, c: Controls, n: nat): seq<RawRowRecord>
    requires c.Check().None? && file.Valid() && n <= |file.rows|
  {
    Window(NumberedRaw(file, ValidRows(file.rows, hasHeader, n)), c)
  }

  /** The last selectable line has passed, or as many lines as wanted are selected. */
  predicate Enough(lines: nat, selected: nat, c: Controls) {
    (c.end.Some? && lines >= c.end.value) || (c.firstN.Some? && selected >= c.firstN.value)
  }

  /** When the iterator may stop: later rows cannot be selected. */
  lemma StopsRightly(rows: seq<Row>, hasHeader: bool, c: Controls, n: nat)
    requires c.Check().None? && n <= |rows| && Enough(|ValidRows(rows, hasHeader, n)|, |SelectedRows(rows, hasHeader, c, n)|, c)
    ensures SelectedRows(rows, hasHeader, c, |rows|) == SelectedRows(rows, hasHeader, c, n)
  {
    ValidPrefix(rows, hasHeader, n, |rows|);
    NumberedPrefix(rows, ValidRows(rows, hasHeader, n), ValidRows(rows, hasHeader, |rows|));
    WindowSettled(Numbered(rows, ValidRows(rows, hasHeader, n)), Numbered(rows, ValidRows(rows, hasHeader, |rows|)), c);
  }

  lemma StopsRightlyRaw(file: File, hasHeader: bool, c: Controls, n: nat)
    requires c.Check().None? && file.Valid() && n <= |file.rows|
    requires Enough(|ValidRows(file.rows, hasHeader, n)|, |SelectedRaw(file, hasHeader, c, n)|, c)
    ensures SelectedRaw(file, hasHeader, c, |file.rows|) == SelectedRaw(file, hasHeader, c, n)
  {
    var now, all := ValidRows(file.rows, hasHeader, n), ValidRows(file.rows, hasHeader, |file.rows|);
    ValidPrefix(file.rows, hasHeader, n, |file.rows|);
    NumberedRawPrefix(file, now, all);
    WindowSettled(NumberedRaw(file, now), NumberedRaw(file, all), c);
  }

  lemma SkipsInvalid(rows: seq<Row>, hasHeader: bool, n: nat)
    requires n < |rows| && !IsValid(rows, hasHeader, n)
    ensures ValidRows(rows, hasHeader, n + 1) == ValidRows(rows, hasHeader, n)
  {
  }

  /** A valid row: whether its line joins the selection. */
  lemma SelectNext(rows: seq<Row>, hasHeader: bool, c: Controls, n: nat, line: nat)
    requires c.Check().None? && n < |rows| && IsValid(rows, hasHeader, n)
    requires line == |ValidRows(rows, hasHeader, n)| + 1
    ensures line == |ValidRows(rows, hasHeader, n + 1)|
    ensures var before := SelectedRows(rows, hasHeader, c, n);
            SelectedRows(rows, hasHeader, c, n + 1) ==
              if Selected(line, c) && !(c.firstN.Some? && |before| >= c.firstN.value)
              then before + [RowRecord(line, rows[n].fields)] else before
  {
    var valid, x := ValidRows(rows, hasHeader, n), RowRecord(line, rows[n].fields);
    assert Numbered(rows, valid + [n]) == Numbered(rows, valid) + [x];
    WindowMore(Numbered(rows, valid), x, c);
    assert SelectedRows(rows, hasHeader, c, n) + [] == SelectedRows(rows, hasHeader, c, n);
  }

  lemma SelectNextRaw(file: File, hasHeader: bool, c: Controls, n: nat, line: nat)
    requires c.Check().None? && file.Valid() && n < |file.rows| && IsValid(file.rows, hasHeader, n)
    requires line == |ValidRows(file.rows, hasHeader, n)| + 1
    ensures line == |ValidRows(file.rows, hasHeader, n + 1)|
    ensures var before := SelectedRaw(file, hasHeader, c, n);
            SelectedRaw(file, hasHeader, c, n + 1) ==
              if Selected(line, c) && !(c.firstN.Some? && |before| >= c.firstN.value)
              then before + [RawRowRecord(line, file.rows[n].fields, file.RawText(n))] else before
  {
    var valid, x := ValidRows(file.rows, hasHeader, n), RawRowRecord(line, file.rows[n].fields, file.RawText(n));
    assert NumberedRaw(file, valid + [n]) == NumberedRaw(file, valid) + [x];
    WindowMore(NumberedRaw(file, valid), x, c);
    assert SelectedRaw(file, hasHeader, c, n) + [] == SelectedRaw(file, hasHeader, c, n);
  }

  // ----- Preview and raw text --------------------------------------------

  /** The data rows among the first `n` rows, each with its verdict. */
  function Verdicts(file: File, hasHeader: bool, n: nat): seq<PreviewRow>
    requires n <= |file.rows|
  {
    if n == 0 then []
    else
      Verdicts(file, hasHeader, n - 1) +
      if IsHeader(hasHeader, n - 1) then []
      else [PreviewRow(file.StartLine(n - 1) + 1, file.rows[n - 1].fields, FitsFirst(file.rows, n - 1))]
  }

  lemma {:induction false} VerdictsPrefix(file: File, hasHeader: bool, n: nat, m: nat)
    requires n <= m <= |file.rows|
    ensures Verdicts(file, hasHeader, n) <= Verdicts(file, hasHeader, m)
    decreases m
  {
    if n < m {
      VerdictsPrefix(file, hasHeader, n, m - 1);
    }
  }

  function CountValid(verdicts: seq<PreviewRow>): nat {
    if verdicts == [] then 0
    else CountValid(verdicts[..|verdicts| - 1]) + if verdicts[|verdicts| - 1].valid then 1 else 0
  }

  /** The verdicts are those of the scan and of the iterators. */
  lemma {:induction false} VerdictsCount(file: File, hasHeader: bool, n: nat)
    requires n <= |file.rows|
    ensures |Verdicts(file, hasHeader, n)| == DataRows(hasHeader, n)
    ensures CountValid(Verdicts(file, hasHeader, n)) == |ValidRows(file.rows, hasHeader, n)|
  {
    if n > 0 {
      var before := Verdicts(file, hasHeader, n - 1);
      VerdictsCount(file, hasHeader, n - 1);
      if !IsHeader(hasHeader, n - 1) {
        var v := PreviewRow(file.StartLine(n - 1) + 1, file.rows[n - 1].fields, FitsFirst(file.rows, n - 1));
        assert (before + [v])[..|before|] == before;
      }
    }
  }

  /** A row that is data has its verdict after those of the data rows before it. */
  lemma {:induction false} VerdictOf(file: File, hasHeader: bool, n: nat, i: nat)
    requires i < n <= |file.rows| && !IsHeader(hasHeader, i)
    ensures var d := DataRows(hasHeader, i);
            d < |Verdicts(file, hasHeader, n)| &&
            Verdicts(file, hasHeader, n)[d] ==
              PreviewRow(file.StartLine(i) + 1, file.rows[i].fields, FitsFirst(file.rows, i))
    decreases n
  {
    VerdictsCount(file, hasHeader, n - 1);
    if i < n - 1 {
      VerdictOf(file, hasHeader, n - 1, i);
    }
  }

  lemma {:induction false} ValidIs(rows: seq<Row>, hasHeader: bool, n: nat, i: nat)
    requires i < n <= |rows|
    ensures i in ValidRows(rows, hasHeader, n) <==> IsValid(rows, hasHeader, i)
    decreases n
  {
    if i < n - 1 {
      ValidIs(rows, hasHeader, n - 1, i);
    } else {
      var before := ValidRows(rows, hasHeader, n - 1);
      forall k | 0 <= k < |before| ensures before[k] != i {
      }
    }
  }

  /** Row by row: the verdict of a data row says whether the scan and the iterators take it for valid. */
  lemma VerdictsAgree(file: File, hasHeader: bool, n: nat, i: nat)
    requires i < n <= |file.rows|
    ensures IsHeader(hasHeader, i) ==> i !in ValidRows(file.rows, hasHeader, n)
    ensures !IsHeader(hasHeader, i) ==>
              var d := DataRows(hasHeader, i);
              d < |Verdicts(file, hasHeader, n)| &&
              Verdicts(file, hasHeader, n)[d].rawRow == file.StartLine(i) + 1 &&
              Verdicts(file, hasHeader, n)[d].fields == file.rows[i].fields &&
              (Verdicts(file, hasHeader, n)[d].valid <==> i in ValidRows(file.rows, hasHeader, n))
  {
    ValidIs(file.rows, hasHeader, n, i);
    if !IsHeader(hasHeader, i) {
      VerdictOf(file, hasHeader, n, i);
    }
  }

  lemma {:induction false} TextAppend(a: seq<string>, b: seq<string>)
    ensures Text(a + b) == Text(a) + Text(b)
  {
    if b == [] {
      assert a + b == a && Text(a) + "" == Text(a);
    } else {
      var n := |b| - 1;
      TextAppend(a, b[..n]);
      assert (a + b)[..|a| + n] == a + b[..n];
      Associative(Text(a), Text(b[..n]), b[n]);
    }
  }

  /** The raw texts of the first `n` rows, in order. */
  function RawTexts(file: File, n: nat): seq<string>
    requires file.Valid() && n <= |file.rows|
  {
    if n == 0 then [] else RawTexts(file, n - 1) + [file.RawText(n - 1)]
  }

  /** Nothing of the file is lost between the rows: their raw texts make up its lines. */
  lemma {:induction false} RawTextsConserve(file: File, n: nat)
    requires file.Valid() && n <= |file.rows|
    ensures file.StartLine(n) <= |file.lines| && Text(RawTexts(file, n)) == Text(file.lines[..file.StartLine(n)])
  {
    if n > 0 {
      RawTextsConserve(file, n - 1);
      var i, j := file.StartLine(n - 1), file.StartLine(n);
      assert n > 1 ==> file.rows[n - 2].endLine <= file.rows[n - 1].endLine;
      assert RawTexts(file, n)[..n - 1] == RawTexts(file, n - 1) by { RawTextsLength(file, n - 1); }
      SliceSplit(file.lines, 0, i, j);
      assert file.lines[0..i] == file.lines[..i] && file.lines[0..j] == file.lines[..j];
      TextAppend(file.lines[..i], file.lines[i..j]);
    }
  }

  lemma {:induction false} RawTextsLength(file: File, n: nat)
    requires file.Valid() && n <= |file.rows|
    ensures |RawTexts(file, n)| == n
  {
    if n > 0 {
      RawTextsLength(file, n - 1);
    }
  }
}
