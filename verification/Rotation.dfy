/**
 Size-based rotation of one sink path: slot 0 is the live file, slot `i` is backup `.i`.
 The slots hold whatever is kept of a file: its bytes, or the list of records written to it.
 */
module Rotation {
  import opened Splitting

  type Slots<T> = map<nat, T>

  /** Where slot `j` of the rotated files comes from, if there is such a file at all. */
  function Source<T>(slots: Slots<T>, n: nat, j: nat): (from: int)
    ensures from == -1 || (from >= 0 && (from in slots || from == 0))
  {
    if j == 0 then -1
    else if j > n then (if j in slots then j else -1)
    else if j == 1 || j - 1 in slots then j - 1
    else if j == n && n in slots then n
    else -1
  }

  /** All slots after one rotation with `n` backups: a shift by one, and a new live file. */
  function Rotated<T>(slots: Slots<T>, n: nat, empty: T): (after: Slots<T>)
    requires 0 in slots
  {
    (map j: nat | j in slots.Keys + (set k | k in slots.Keys :: k + 1) && Source(slots, n, j) != -1
       :: slots[Source(slots, n, j)])[0 := empty]
  }

  lemma RotatedAt<T>(slots: Slots<T>, n: nat, empty: T, j: nat)
    requires 0 in slots
    ensures var after := Rotated(slots, n, empty);
            if j == 0 then 0 in after && after[0] == empty
            else (j in after <==> Source(slots, n, j) != -1) &&
                 (j in after ==> after[j] == slots[Source(slots, n, j)])
  {
    if 1 <= j {
      assert j - 1 in slots.Keys ==> (j - 1) + 1 in (set k | k in slots.Keys :: k + 1);
    }
  }

  // ----- The retained log ------------------------------------------------

  function Get<U>(slots: Slots<seq<U>>, j: nat): seq<U> {
    if j in slots then slots[j] else []
  }

  /** The retained files, oldest first: slots `k`, ..., 1, and the live file. */
  function Log<U>(slots: Slots<seq<U>>, k: nat): seq<U> {
    if k == 0 then Get(slots, 0) else Get(slots, k) + Log(slots, k - 1)
  }

  /** What a rotation deletes: the oldest slot if another file moves into it. */
  function Deleted<U>(slots: Slots<seq<U>>, n: nat): seq<U> {
    if n <= 1 || n - 1 in slots then Get(slots, n) else []
  }

  lemma {:induction false} ShiftedLog<U>(slots: Slots<seq<U>>, n: nat, k: nat)
    requires 0 in slots && 1 <= k < n
    ensures Log(Rotated(slots, n, []), k) == Log(slots, k - 1)
  {
    RotatedAt(slots, n, [], k);
    if k == 1 {
      RotatedAt(slots, n, [], 0);
      assert slots[0] + [] == slots[0];
    } else {
      ShiftedLog(slots, n, k - 1);
    }
  }

  /** What becomes of the oldest slot of several. */
  lemma OldestAfter<U>(slots: Slots<seq<U>>, n: nat)
    requires 0 in slots && n >= 2
    ensures Get(Rotated(slots, n, []), n) == if n - 1 in slots then slots[n - 1] else Get(slots, n)
  {
    RotatedAt(slots, n, [], n);
  }

  /** With several slots, the log without the oldest file moves up by one. */
  lemma ManyKeepLog<U>(slots: Slots<seq<U>>, n: nat)
    requires 0 in slots && n >= 2
    ensures Log(slots, n) == Deleted(slots, n) + Log(Rotated(slots, n, []), n)
  {
    var after := Log(Rotated(slots, n, []), n);
    ShiftedLog(slots, n, n - 1);
    OldestAfter(slots, n);
    if n - 1 !in slots {
      EmptyLeft(Log(slots, n - 2));
      EmptyLeft(after);
    }
  }

  /** A rotation loses exactly the deleted file; everything else keeps its order. */
  lemma RotationKeepsLog<U>(slots: Slots<seq<U>>, n: nat)
    requires 0 in slots
    ensures Log(slots, n) == Deleted(slots, n) + Log(Rotated(slots, n, []), n)
    ensures forall j: nat | j > n :: j in Rotated(slots, n, []) <==> j in slots
    ensures forall j: nat | j > n && j in slots :: j in Rotated(slots, n, []) && Rotated(slots, n, [])[j] == slots[j]
  {
    forall j: nat | j > n ensures j in Rotated(slots, n, []) <==> j in slots
                          ensures j in slots ==> Rotated(slots, n, [])[j] == slots[j]
    {
      RotatedAt(slots, n, [], j);
    }
    if n >= 2 {
      ManyKeepLog(slots, n);
    } else {
      RotatedAt(slots, n, [], n);
      RotatedAt(slots, n, [], 0);
      EmptyRight(slots[0]);
    }
  }

  // ----- Contiguous backups ----------------------------------------------

  /** Backups exist exactly in slots 1 to k. */
  ghost predicate Contiguous<T>(slots: Slots<T>, k: nat) {
    forall j: nat :: j in slots <==> j <= k
  }

  function Backups<T>(slots: Slots<T>, k: nat): seq<T>
    requires forall j: nat | 1 <= j <= k :: j in slots
  {
    seq(k, i requires 0 <= i < k => slots[i + 1])
  }

  /** For contiguous backups a rotation pushes the live file on the list and cuts it to `n`. */
  lemma RotationShiftsList<T>(slots: Slots<T>, n: nat, empty: T, k: nat)
    requires Contiguous(slots, k) && k <= n
    ensures var after := Rotated(slots, n, empty);
            var m := if k < n then k + 1 else n;
            Contiguous(after, m) && after[0] == empty &&
            Backups(after, m) == ([slots[0]] + Backups(slots, k))[..m]
  {
    var after := Rotated(slots, n, empty);
    forall j: nat ensures j in after <==> j <= (if k < n then k + 1 else n) {
      RotatedAt(slots, n, empty, j);
    }
    forall j: nat | 1 <= j <= (if k < n then k + 1 else n) ensures after[j] == slots[j - 1] {
      RotatedAt(slots, n, empty, j);
    }
  }

  // ----- Writing ---------------------------------------------------------

  /** Rotate first if the blob would push a non-empty file over the limit. */
  function WriteBlob(slots: Slots<Bytes>, n: nat, max: nat, blob: Bytes): Slots<Bytes>
    requires 0 in slots
  {
    var ready := if |slots[0]| > 0 && |slots[0]| + |blob| > max then Rotated(slots, n, []) else slots;
    ready[0 := ready[0] + blob]
  }

  function WriteAll(slots: Slots<Bytes>, n: nat, max: nat, blobs: seq<Bytes>): (after: Slots<Bytes>)
    requires 0 in slots
    ensures 0 in after
  {
    if blobs == [] then slots
    else
      var m := |blobs| - 1;
      WriteBlob(WriteAll(slots, n, max, blobs[..m]), n, max, blobs[m])
  }

  /** The same on files that remember the pieces they were written from. */
  function WriteUnit(slots: Slots<seq<Bytes>>, n: nat, max: nat, blob: Bytes): (after: Slots<seq<Bytes>>)
    requires 0 in slots
    ensures 0 in after
  {
    var size := |Concat(slots[0])|;
    var ready := if size > 0 && size + |blob| > max then Rotated(slots, n, []) else slots;
    ready[0 := ready[0] + [blob]]
  }

  function WriteUnits(slots: Slots<seq<Bytes>>, n: nat, max: nat, blobs: seq<Bytes>): (after: Slots<seq<Bytes>>)
    requires 0 in slots
    ensures 0 in after
  {
    if blobs == [] then slots
    else
      var m := |blobs| - 1;
      WriteUnit(WriteUnits(slots, n, max, blobs[..m]), n, max, blobs[m])
  }

  /** Same slots, and every file holds the bytes of its pieces. */
  ghost predicate Holds(slots: Slots<Bytes>, units: Slots<seq<Bytes>>) {
    slots.Keys == units.Keys && forall j | j in slots :: slots[j] == Concat(units[j])
  }

  lemma RotatedHolds(slots: Slots<Bytes>, units: Slots<seq<Bytes>>, n: nat)
    requires Holds(slots, units) && 0 in slots
    ensures Holds(Rotated(slots, n, []), Rotated(units, n, []))
  {
    forall j: nat
      ensures j in Rotated(slots, n, []) <==> j in Rotated(units, n, [])
      ensures j in Rotated(slots, n, []) ==> Rotated(slots, n, [])[j] == Concat(Rotated(units, n, [])[j])
    {
      RotatedAt(slots, n, [], j);
      RotatedAt(units, n, [], j);
    }
  }

  lemma AppendHolds(slots: Slots<Bytes>, units: Slots<seq<Bytes>>, blob: Bytes)
    requires Holds(slots, units) && 0 in slots
    ensures Holds(slots[0 := slots[0] + blob], units[0 := units[0] + [blob]])
  {
    ConcatAppend(units[0], [blob]);
    assert Concat([blob]) == blob;
  }

  lemma WriteHolds(slots: Slots<Bytes>, units: Slots<seq<Bytes>>, n: nat, max: nat, blob: Bytes)
    requires Holds(slots, units) && 0 in slots
    ensures Holds(WriteBlob(slots, n, max, blob), WriteUnit(units, n, max, blob))
  {
    RotatedHolds(slots, units, n);
    AppendHolds(slots, units, blob);
    RotatedAt(slots, n, [], 0);
    AppendHolds(Rotated(slots, n, []), Rotated(units, n, []), blob);
  }

  lemma {:induction false} WriteAllHolds(slots: Slots<Bytes>, units: Slots<seq<Bytes>>, n: nat, max: nat, blobs: seq<Bytes>)
    requires Holds(slots, units) && 0 in slots
    ensures Holds(WriteAll(slots, n, max, blobs), WriteUnits(units, n, max, blobs))
  {
    if blobs != [] {
      var m := |blobs| - 1;
      WriteAllHolds(slots, units, n, max, blobs[..m]);
      WriteHolds(WriteAll(slots, n, max, blobs[..m]), WriteUnits(units, n, max, blobs[..m]), n, max, blobs[m]);
    }
  }

  lemma {:induction false} AppendToLog<U>(slots: Slots<seq<U>>, k: nat, u: U)
    requires 0 in slots
    ensures Log(slots[0 := slots[0] + [u]], k) == Log(slots, k) + [u]
  {
    if k > 0 {
      AppendToLog(slots, k - 1, u);
      Associative(Get(slots, k), Log(slots, k - 1), [u]);
    }
  }

  /** A rotation deletes nothing while the last slot is free. */
  lemma NothingDeleted<U>(slots: Slots<seq<U>>, n: nat)
    ensures n !in slots ==> Deleted(slots, n) == []
  {
  }

  /** Once the last slot is taken it stays taken. */
  lemma LastSlotStays(units: Slots<seq<Bytes>>, n: nat, max: nat, blob: Bytes)
    requires 0 in units && n in units
    ensures n in WriteUnit(units, n, max, blob)
  {
    RotatedAt(units, n, [], n);
  }

  /** What was written last is in the live file. */
  lemma LastWritten(units: Slots<seq<Bytes>>, n: nat, max: nat, blob: Bytes)
    requires 0 in units
    ensures Log(WriteUnit(units, n, max, blob), n) != []
  {
    var after := WriteUnit(units, n, max, blob);
    LogHasLive(after, n);
  }

  lemma {:induction false} LogHasLive<U>(slots: Slots<seq<U>>, k: nat)
    requires 0 in slots && slots[0] != []
    ensures Log(slots, k) != []
  {
    if k > 0 {
      LogHasLive(slots, k - 1);
    }
  }

  /** One write: the lost pieces grow by whole ones at most. */
  lemma WriteRetains(all: seq<Bytes>, lost: seq<Bytes>, units: Slots<seq<Bytes>>, n: nat, max: nat, blob: Bytes) returns (lost': seq<Bytes>)
    requires 0 in units && all == lost + Log(units, n)
    ensures all + [blob] == lost' + Log(WriteUnit(units, n, max, blob), n)
    ensures lost' == lost || n in units
  {
    var size := |Concat(units[0])|;
    if size > 0 && size + |blob| > max {
      var after := Rotated(units, n, []);
      RotatedAt(units, n, [], 0);
      RotationKeepsLog(units, n);
      NothingDeleted(units, n);
      AppendToLog(after, n, blob);
      EmptyRight(lost);
      Regroup(lost, Deleted(units, n), Log(after, n), [blob]);
      lost' := lost + Deleted(units, n);
    } else {
      AppendToLog(units, n, blob);
      Associative(lost, Log(units, n), [blob]);
      lost' := lost;
    }
  }

  lemma Regroup<T>(a: seq<T>, b: seq<T>, c: seq<T>, d: seq<T>)
    ensures (a + (b + c)) + d == (a + b) + (c + d)
  {
  }

  /** The retained pieces are a suffix of everything there ever was. */
  lemma {:induction false} UnitsRetained(units: Slots<seq<Bytes>>, n: nat, max: nat, blobs: seq<Bytes>) returns (lost: seq<Bytes>)
    requires 0 in units
    ensures Log(units, n) + blobs == lost + Log(WriteUnits(units, n, max, blobs), n)
    ensures blobs != [] ==> Log(WriteUnits(units, n, max, blobs), n) != []
    ensures lost != [] ==> n in WriteUnits(units, n, max, blobs)
  {
    if blobs == [] {
      lost := [];
    } else {
      var m := |blobs| - 1;
      var before := WriteUnits(units, n, max, blobs[..m]);
      lost := UnitsRetained(units, n, max, blobs[..m]);
      if n in before {
        LastSlotStays(before, n, max, blobs[m]);
      }
      LastWritten(before, n, max, blobs[m]);
      lost := WriteRetains(Log(units, n) + blobs[..m], lost, before, n, max, blobs[m]);
      LastApart(Log(units, n), blobs);
    }
  }

  lemma LastApart<T>(a: seq<T>, b: seq<T>)
    requires b != []
    ensures (a + b[..|b| - 1]) + [b[|b| - 1]] == a + b
  {
  }

  lemma {:induction false} LogHolds(slots: Slots<Bytes>, units: Slots<seq<Bytes>>, k: nat)
    requires Holds(slots, units)
    ensures Log(slots, k) == Concat(Log(units, k))
  {
    if k > 0 {
      LogHolds(slots, units, k - 1);
      ConcatAppend(Get(units, k), Log(units, k - 1));
    }
  }

  /** Each existing file taken as one piece. */
  function AsUnits(slots: Slots<Bytes>): Slots<seq<Bytes>> {
    map j | j in slots :: [slots[j]]
  }

  /** The files there are before the first write, oldest first. */
  function InitialFiles(slots: Slots<Bytes>, n: nat): seq<Bytes> {
    Log(AsUnits(slots), n)
  }

  /**
   Retention: whatever was in the slots, after any writes the retained files, read oldest first,
   are the initial files followed by all written blobs, minus a number of whole leading ones.  What
   was written last is never lost, and nothing is lost before the last slot is taken; from
   contiguous slots that is when all slots are taken.
   */
  lemma RetainedLog(slots: Slots<Bytes>, n: nat, max: nat, blobs: seq<Bytes>) returns (k: nat)
    requires 0 in slots
    ensures var all := InitialFiles(slots, n) + blobs;
            k <= |all| && Log(WriteAll(slots, n, max, blobs), n) == Concat(all[k..]) && (blobs != [] ==> k < |all|)
    ensures var after := WriteAll(slots, n, max, blobs);
            k > 0 ==> n in after && (Packed(slots, n) ==> Contiguous(after, n))
  {
    var units := AsUnits(slots);
    WriteAllHolds(slots, units, n, max, blobs);
    LogHolds(WriteAll(slots, n, max, blobs), WriteUnits(units, n, max, blobs), n);
    var lost := UnitsRetained(units, n, max, blobs);
    k := |lost|;
    assert (lost + Log(WriteUnits(units, n, max, blobs), n))[k..] == Log(WriteUnits(units, n, max, blobs), n);
    if Packed(slots, n) {
      WritesPacked(slots, n, max, blobs);
    }
  }

  /** No gap, and nothing beyond the backup count. */
  ghost predicate Packed<T>(slots: Slots<T>, n: nat) {
    exists k: nat :: k <= n && Contiguous(slots, k)
  }

  lemma WritePacked(slots: Slots<Bytes>, n: nat, max: nat, blob: Bytes)
    requires 0 in slots && Packed(slots, n)
    ensures Packed(WriteBlob(slots, n, max, blob), n)
  {
    var k: nat :| k <= n && Contiguous(slots, k);
    var after := WriteBlob(slots, n, max, blob);
    RotationShiftsList(slots, n, [], k);
    assert Contiguous(after, k) || Contiguous(after, if k < n then k + 1 else n);
  }

  lemma {:induction false} WritesPacked(slots: Slots<Bytes>, n: nat, max: nat, blobs: seq<Bytes>)
    requires 0 in slots && Packed(slots, n)
    ensures Packed(WriteAll(slots, n, max, blobs), n)
  {
    if blobs != [] {
      var m := |blobs| - 1;
      WritesPacked(slots, n, max, blobs[..m]);
      WritePacked(WriteAll(slots, n, max, blobs[..m]), n, max, blobs[m]);
    }
  }

  // ----- File sizes ------------------------------------------------------

  /** A file within the limit, or one that holds a single non-empty record. */
  ghost predicate Bounded(units: seq<Bytes>, max: nat) {
    |Concat(units)| <= max || NonEmpty(units) <= 1
  }

  function NonEmpty(units: seq<Bytes>): nat {
    if units == [] then 0 else (if units[0] == [] then 0 else 1) + NonEmpty(units[1..])
  }

  lemma {:induction false} NonEmptyAppend(units: seq<Bytes>, blob: Bytes)
    ensures NonEmpty(units + [blob]) == NonEmpty(units) + if blob == [] then 0 else 1
    ensures |Concat(units)| == 0 ==> NonEmpty(units) == 0
  {
    if units != [] {
      NonEmptyAppend(units[1..], blob);
      assert (units + [blob])[1..] == units[1..] + [blob];
    }
  }

  ghost predicate AllBounded(units: Slots<seq<Bytes>>, max: nat) {
    forall j | j in units :: Bounded(units[j], max)
  }

  lemma {:induction false} NonEmptyOne(blob: Bytes)
    ensures Concat([blob]) == blob && NonEmpty([blob]) <= 1
  {
    ConcatOne(blob);
    assert NonEmpty([blob][1..]) == 0;
  }

  lemma AppendBounded(units: seq<Bytes>, limit: nat, max: nat, blob: Bytes)
    requires limit <= max
    requires |Concat(units)| == 0 || |Concat(units)| + |blob| <= limit
    ensures Bounded(units + [blob], max)
  {
    NonEmptyAppend(units, blob);
    ConcatAppend(units, [blob]);
    NonEmptyOne(blob);
  }

  /** A write under any limit up to `max` leaves every file within `max`, or a single record. */
  lemma WriteBounded(units: Slots<seq<Bytes>>, n: nat, limit: nat, max: nat, blob: Bytes)
    requires 0 in units && AllBounded(units, max) && limit <= max
    ensures AllBounded(WriteUnit(units, n, limit, blob), max)
  {
    var size := |Concat(units[0])|;
    if size > 0 && size + |blob| > limit {
      var after := Rotated(units, n, []);
      forall j: nat ensures j in after ==> Bounded(after[j], max) {
        RotatedAt(units, n, [], j);
      }
      AppendBounded([], limit, max, blob);
      RotatedAt(units, n, [], 0);
    } else {
      AppendBounded(units[0], limit, max, blob);
    }
  }

  ghost predicate Lacks(units: Slots<seq<Bytes>>, piece: Bytes) {
    forall j | j in units :: piece !in units[j]
  }

  /** Whatever a file holds was written to it, or was there before. */
  lemma WriteLacks(units: Slots<seq<Bytes>>, n: nat, max: nat, blob: Bytes, piece: Bytes)
    requires 0 in units && Lacks(units, piece) && piece != blob
    ensures Lacks(WriteUnit(units, n, max, blob), piece)
  {
    var after := Rotated(units, n, []);
    forall j: nat ensures j in after ==> piece !in after[j] {
      RotatedAt(units, n, [], j);
    }
  }

  lemma {:induction false} WritesBounded(units: Slots<seq<Bytes>>, n: nat, max: nat, blobs: seq<Bytes>)
    requires 0 in units && AllBounded(units, max)
    ensures AllBounded(WriteUnits(units, n, max, blobs), max)
  {
    if blobs != [] {
      var m := |blobs| - 1;
      WritesBounded(units, n, max, blobs[..m]);
      WriteBounded(WriteUnits(units, n, max, blobs[..m]), n, max, max, blobs[m]);
    }
  }

  lemma {:induction false} WritesLack(units: Slots<seq<Bytes>>, n: nat, max: nat, blobs: seq<Bytes>, piece: Bytes)
    requires 0 in units && Lacks(units, piece) && piece !in blobs
    ensures Lacks(WriteUnits(units, n, max, blobs), piece)
  {
    if blobs != [] {
      var m := |blobs| - 1;
      WritesLack(units, n, max, blobs[..m], piece);
      WriteLacks(WriteUnits(units, n, max, blobs[..m]), n, max, blobs[m], piece);
    }
  }

  /** At most one non-empty piece: the file is that piece. */
  lemma {:induction false} OnePiece(units: seq<Bytes>)
    requires NonEmpty(units) <= 1
    ensures Concat(units) == [] || Concat(units) in units
  {
    if units != [] {
      if units[0] == [] {
        OnePiece(units[1..]);
        assert [] + Concat(units[1..]) == Concat(units[1..]);
      } else {
        NothingMore(units[1..]);
        assert units[0] + [] == units[0];
      }
    }
  }

  lemma {:induction false} NothingMore(units: seq<Bytes>)
    requires NonEmpty(units) == 0
    ensures Concat(units) == []
  {
    if units != [] {
      NothingMore(units[1..]);
    }
  }

  lemma AsUnitsHold(slots: Slots<Bytes>, max: nat)
    ensures Holds(slots, AsUnits(slots)) && AllBounded(AsUnits(slots), max)
  {
    forall j | j in slots ensures Concat(AsUnits(slots)[j]) == slots[j] && NonEmpty(AsUnits(slots)[j]) <= 1 {
      NonEmptyOne(slots[j]);
    }
  }

  ghost predicate WasFile(slots: Slots<Bytes>, file: Bytes) {
    exists j :: j in slots && slots[j] == file
  }

  lemma NewIsLacked(slots: Slots<Bytes>, file: Bytes)
    requires !WasFile(slots, file)
    ensures Lacks(AsUnits(slots), file)
  {
    forall j | j in slots ensures file !in AsUnits(slots)[j] {
      assert slots[j] != file;
    }
  }

  /** Every file is within the limit, or is one single record, or is as it was before the writes. */
  lemma RecordsBounded(slots: Slots<Bytes>, n: nat, max: nat, blobs: seq<Bytes>, j: nat)
    requires 0 in slots && j in WriteAll(slots, n, max, blobs)
    ensures var file := WriteAll(slots, n, max, blobs)[j];
            |file| <= max || file in blobs || WasFile(slots, file)
  {
    var units := AsUnits(slots);
    var pieces := WriteUnits(units, n, max, blobs);
    AsUnitsHold(slots, max);
    WriteAllHolds(slots, units, n, max, blobs);
    WritesBounded(units, n, max, blobs);
    var file := Concat(pieces[j]);
    if |file| > max {
      OnePiece(pieces[j]);
      if file !in blobs && !WasFile(slots, file) {
        NewIsLacked(slots, file);
        WritesLack(units, n, max, blobs, file);
      }
    }
  }
}
