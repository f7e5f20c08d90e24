/** Byte strings and the left-to-right split on a separator. */
module Splitting {

  newtype Byte = b: int | 0 <= b < 256
  type Bytes = seq<Byte>

  const LF: Byte := 10
  const CR: Byte := 13

  predicate OccursAt(s: Bytes, sep: Bytes, i: nat) {
    i + |sep| <= |s| && s[i..i + |sep|] == sep
  }

  /** No occurrence of the separator at or after `start`. */
  predicate Free(s: Bytes, sep: Bytes, start: nat) {
    forall i: nat | start <= i <= |s| :: !OccursAt(s, sep, i)
  }

  /** The first occurrence at or after `start` is at `i`. */
  predicate First(s: Bytes, sep: Bytes, start: nat, i: nat) {
    start <= i <= |s| && OccursAt(s, sep, i) && forall j: nat | start <= j < i :: !OccursAt(s, sep, j)
  }

  lemma {:induction false} FirstExists(s: Bytes, sep: Bytes, start: nat)
    requires start <= |s| && !Free(s, sep, start)
    ensures exists i: nat | i <= |s| :: First(s, sep, start, i)
    decreases |s| - start
  {
    if OccursAt(s, sep, start) {
      assert First(s, sep, start, start);
    } else {
      FirstExists(s, sep, start + 1);
      var i: nat :| i <= |s| && First(s, sep, start + 1, i);
      assert First(s, sep, start, i);
    }
  }

  /** `bytearray.find(sep, start)`: the first occurrence at or after `start`, or -1. */
  function Find(s: Bytes, sep: Bytes, start: nat): (idx: int)
    requires start <= |s|
    ensures if idx < 0 then idx == -1 && Free(s, sep, start) else First(s, sep, start, idx)
  {
    if Free(s, sep, start) then -1
    else
      FirstExists(s, sep, start);
      var i: nat :| i <= |s| && First(s, sep, start, i); i
  }

  /** The pieces that a separator has closed, and the unterminated tail. */
  datatype Pieces = Pieces(closed: seq<Bytes>, tail: Bytes)

  /** A closed piece put before the others. */
  function Front(piece: Bytes, rest: Pieces): Pieces {
    Pieces([piece] + rest.closed, rest.tail)
  }

  /** Cut `s[start..]` at every separator, left to right. */
  function Cut(s: Bytes, sep: Bytes, start: nat): Pieces
    requires sep != [] && start <= |s|
    decreases |s| - start
  {
    var i := Find(s, sep, start);
    if i < 0 then Pieces([], s[start..]) else Front(s[start..i], Cut(s, sep, i + |sep|))
  }

  function Joined(before: Pieces, after: Pieces): Pieces {
    Pieces(before.closed + after.closed, after.tail)
  }

  function Concat(parts: seq<Bytes>): Bytes {
    if parts == [] then [] else parts[0] + Concat(parts[1..])
  }

  function TotalLength(parts: seq<Bytes>): nat {
    if parts == [] then 0 else |parts[0]| + TotalLength(parts[1..])
  }

  lemma ConcatOne(part: Bytes)
    ensures Concat([part]) == part
  {
    assert [part][1..] == [];
    assert part + [] == part;
  }

  lemma {:induction false} ConcatAppend(a: seq<Bytes>, b: seq<Bytes>)
    ensures Concat(a + b) == Concat(a) + Concat(b)
  {
    if a == [] {
      assert a + b == b;
    } else {
      ConcatAppend(a[1..], b);
      assert (a + b)[1..] == a[1..] + b;
      Associative(a[0], Concat(a[1..]), Concat(b));
    }
  }

  lemma {:induction false} TotalLengthAppend(a: seq<Bytes>, b: seq<Bytes>)
    ensures TotalLength(a + b) == TotalLength(a) + TotalLength(b)
  {
    if a == [] {
      assert a + b == b;
    } else {
      TotalLengthAppend(a[1..], b);
      assert (a + b)[0] == a[0] && (a + b)[1..] == a[1..] + b;
    }
  }

  lemma Associative<T>(a: seq<T>, b: seq<T>, c: seq<T>)
    ensures a + (b + c) == (a + b) + c
  {
  }

  lemma EmptyRight<T>(a: seq<T>)
    ensures a + [] == a
  {
  }

  lemma EmptyLeft<T>(a: seq<T>)
    ensures [] + a == a
  {
  }

  lemma HeadTail<T>(x: T, xs: seq<T>)
    ensures ([x] + xs)[0] == x && ([x] + xs)[1..] == xs
  {
  }

  lemma HeadFirst<T>(s: seq<T>)
    requires s != []
    ensures [s[0]] + s[1..] == s
  {
  }

  lemma LastAfter<T>(s: seq<T>)
    requires s != []
    ensures s == s[..|s| - 1] + [s[|s| - 1]]
  {
  }

  lemma HeadSlice<T>(x: T, xs: seq<T>)
    ensures xs == [] ==> [x] + xs == [x] && [x][..0] == []
    ensures xs != [] ==> ([x] + xs)[..|xs|] == [x] + xs[..|xs| - 1] && ([x] + xs)[|xs|] == xs[|xs| - 1]
  {
  }

  lemma SliceSplit<T>(s: seq<T>, i: nat, k: nat, j: nat)
    requires i <= k <= j <= |s|
    ensures s[i..j] == s[i..k] + s[k..j]
  {
  }

  lemma DropSplit<T>(s: seq<T>, k: nat)
    requires k <= |s|
    ensures s[0..] == s[0..k] + s[k..]
  {
  }

  // ----- Occurrences under concatenation ---------------------------------

  lemma OccursInPrefix(a: Bytes, b: Bytes, sep: Bytes, i: nat)
    requires i + |sep| <= |a|
    ensures OccursAt(a + b, sep, i) <==> OccursAt(a, sep, i)
  {
    assert (a + b)[i..i + |sep|] == a[i..i + |sep|];
  }

  lemma OccursInSuffix(p: Bytes, q: Bytes, sep: Bytes, i: nat)
    requires |p| <= i
    ensures OccursAt(p + q, sep, i) <==> OccursAt(q, sep, i - |p|)
  {
    if i + |sep| <= |p + q| {
      assert (p + q)[i..i + |sep|] == q[i - |p|..i - |p| + |sep|];
    }
  }

  lemma FindIs(s: Bytes, sep: Bytes, start: nat, i: nat)
    requires First(s, sep, start, i)
    ensures Find(s, sep, start) == i
  {
  }

  lemma FindShift(p: Bytes, q: Bytes, sep: Bytes, k: nat)
    requires k <= |q|
    ensures Find(p + q, sep, |p| + k) == if Find(q, sep, k) < 0 then -1 else |p| + Find(q, sep, k)
  {
    forall i: nat | |p| <= i ensures OccursAt(p + q, sep, i) <==> OccursAt(q, sep, i - |p|) {
      OccursInSuffix(p, q, sep, i);
    }
    var f := Find(q, sep, k);
    if f >= 0 {
      assert First(p + q, sep, |p| + k, |p| + f);
    } else {
      assert Free(p + q, sep, |p| + k);
    }
  }

  lemma CutStep(s: Bytes, sep: Bytes, start: nat, i: nat, rest: Pieces)
    requires sep != [] && start <= |s| && Find(s, sep, start) == i && rest == Cut(s, sep, i + |sep|)
    ensures Cut(s, sep, start) == Front(s[start..i], rest)
  {
  }

  /** Cutting from `|p|` on is cutting what comes after `p`. */
  lemma {:induction false} CutShift(p: Bytes, q: Bytes, sep: Bytes, k: nat)
    requires sep != [] && k <= |q|
    ensures Cut(p + q, sep, |p| + k) == Cut(q, sep, k)
    decreases |q| - k
  {
    FindShift(p, q, sep, k);
    var i := Find(q, sep, k);
    if i < 0 {
      DropShift(p, q, k);
    } else {
      CutShift(p, q, sep, i + |sep|);
      ShiftFront(p, q, sep, k, i);
    }
  }

  lemma ShiftFront(p: Bytes, q: Bytes, sep: Bytes, k: nat, i: nat)
    requires sep != [] && k <= |q| && Find(q, sep, k) == i && Find(p + q, sep, |p| + k) == |p| + i
    requires Cut(p + q, sep, |p| + (i + |sep|)) == Cut(q, sep, i + |sep|)
    ensures Cut(p + q, sep, |p| + k) == Cut(q, sep, k)
  {
    SliceShift(p, q, k, i);
  }

  lemma DropShift<T>(p: seq<T>, q: seq<T>, k: nat)
    requires k <= |q|
    ensures (p + q)[|p| + k..] == q[k..]
  {
  }

  lemma SliceShift<T>(p: seq<T>, q: seq<T>, k: nat, i: nat)
    requires k <= i <= |q|
    ensures (p + q)[|p| + k..|p| + i] == q[k..i]
  {
  }

  // ----- The split of an extended stream ---------------------------------

  lemma FindExtended(a: Bytes, b: Bytes, sep: Bytes, start: nat)
    requires start <= |a| && Find(a, sep, start) >= 0
    ensures Find(a + b, sep, start) == Find(a, sep, start)
  {
    var i := Find(a, sep, start);
    forall j: nat | j <= i ensures OccursAt(a + b, sep, j) <==> OccursAt(a, sep, j) {
      OccursInPrefix(a, b, sep, j);
    }
    FindIs(a + b, sep, start, i);
  }

  lemma FrontJoined(piece: Bytes, before: Pieces, after: Pieces)
    ensures Joined(Front(piece, before), after) == Front(piece, Joined(before, after))
  {
    Associative([piece], before.closed, after.closed);
  }

  lemma NothingJoined(after: Pieces, tail: Bytes)
    ensures Joined(Pieces([], tail), after) == after
  {
    assert [] + after.closed == after.closed;
  }

  /** Pieces closed within `a` stay closed; only the tail is cut again. */
  lemma {:induction false} CutAppend(a: Bytes, b: Bytes, sep: Bytes, start: nat)
    requires sep != [] && start <= |a|
    ensures Cut(a + b, sep, start) == Joined(Cut(a, sep, start), Cut(Cut(a, sep, start).tail + b, sep, 0))
    decreases |a| - start
  {
    var i := Find(a, sep, start);
    if i < 0 {
      TailAppend(a, b, sep, start);
    } else {
      FindExtended(a, b, sep, start);
      CutAppend(a, b, sep, i + |sep|);
      SlicePrefix(a, b, start, i);
      var rest := Cut(a, sep, i + |sep|);
      FrontJoined(a[start..i], rest, Cut(rest.tail + b, sep, 0));
    }
  }

  lemma SlicePrefix<T>(a: seq<T>, b: seq<T>, i: nat, j: nat)
    requires i <= j <= |a|
    ensures (a + b)[i..j] == a[i..j]
  {
  }

  /** Without a separator from `start` on, everything from there is cut anew. */
  lemma TailAppend(a: Bytes, b: Bytes, sep: Bytes, start: nat)
    requires sep != [] && start <= |a| && Find(a, sep, start) < 0
    ensures Cut(a + b, sep, start) == Joined(Cut(a, sep, start), Cut(Cut(a, sep, start).tail + b, sep, 0))
  {
    assert a + b == a[..start] + (a[start..] + b);
    CutShift(a[..start], a[start..] + b, sep, 0);
    NothingJoined(Cut(a[start..] + b, sep, 0), a[start..]);
  }

  /** The pieces of a stream, with `p` put before the first byte. */
  function Prepend(p: Bytes, c: Pieces): Pieces {
    if c.closed == [] then Pieces([], p + c.tail)
    else Pieces([p + c.closed[0]] + c.closed[1..], c.tail)
  }

  /** Starting earlier, without passing a separator, lengthens the first piece. */
  lemma CutEarlier(s: Bytes, sep: Bytes, k: nat)
    requires sep != [] && k <= |s| && Find(s, sep, 0) == Find(s, sep, k)
    ensures Cut(s, sep, 0) == Prepend(s[0..k], Cut(s, sep, k))
  {
    var f := Find(s, sep, k);
    if f < 0 {
      DropSplit(s, k);
    } else {
      var c, d, rest := Cut(s, sep, 0), Cut(s, sep, k), Cut(s, sep, f + |sep|);
      assert c == Front(s[0..f], rest);
      assert d == Front(s[k..f], rest);
      PrependFront(s, k, f, rest);
    }
  }

  lemma PrependFront(s: Bytes, k: nat, f: nat, rest: Pieces)
    requires k <= f <= |s|
    ensures Front(s[0..f], rest) == Prepend(s[0..k], Front(s[k..f], rest))
  {
    HeadTail(s[k..f], rest.closed);
    SliceSplit(s, 0, k, f);
  }

  /** A prefix that no separator touches only lengthens the first piece. */
  lemma CutPrepend(p: Bytes, q: Bytes, sep: Bytes)
    requires sep != []
    requires forall i: nat | i < |p| :: !OccursAt(p + q, sep, i)
    ensures Cut(p + q, sep, 0) == Prepend(p, Cut(q, sep, 0))
  {
    var s, f := p + q, Find(p + q, sep, |p|);
    if f >= 0 {
      FindIs(s, sep, 0, f);
    }
    CutEarlier(s, sep, |p|);
    CutShift(p, q, sep, 0);
    assert s[0..|p|] == p;
  }

  lemma FreeCut(s: Bytes, sep: Bytes)
    requires sep != [] && Free(s, sep, 0)
    ensures Cut(s, sep, 0) == Pieces([], s)
  {
    assert s[0..] == s;
  }

  /** The tail contains no separator. */
  lemma {:induction false} TailFree(s: Bytes, sep: Bytes, start: nat)
    requires sep != [] && start <= |s|
    ensures Free(Cut(s, sep, start).tail, sep, 0)
    decreases |s| - start
  {
    var i := Find(s, sep, start);
    if i >= 0 {
      TailFree(s, sep, i + |sep|);
    } else {
      forall j: nat | j <= |s| - start ensures !OccursAt(s[start..], sep, j) {
        assert s == s[..start] + s[start..];
        OccursInSuffix(s[..start], s[start..], sep, start + j);
      }
    }
  }

  // ----- Putting the pieces together again -------------------------------

  /** The pieces after the first closed one. */
  function Rest(c: Pieces): Pieces
    requires c.closed != []
  {
    Pieces(c.closed[1..], c.tail)
  }

  lemma FrontParts(piece: Bytes, rest: Pieces)
    ensures Front(piece, rest).closed[0] == piece && Rest(Front(piece, rest)) == rest
  {
    HeadTail(piece, rest.closed);
  }

  /** The closed pieces, each with its separator, and the tail. */
  function Rejoined(c: Pieces, sep: Bytes): Bytes
    decreases |c.closed|
  {
    if c.closed == [] then c.tail else c.closed[0] + (sep + Rejoined(Rest(c), sep))
  }

  lemma RejoinFront(s: Bytes, sep: Bytes, start: nat, i: nat, rest: Pieces)
    requires start <= i <= |s| && OccursAt(s, sep, i) && Rejoined(rest, sep) == s[i + |sep|..]
    ensures Rejoined(Front(s[start..i], rest), sep) == s[start..]
  {
    FrontParts(s[start..i], rest);
    SeparatorBetween(s, sep, start, i);
  }

  lemma SeparatorBetween(s: Bytes, sep: Bytes, start: nat, i: nat)
    requires start <= i <= |s| && OccursAt(s, sep, i)
    ensures s[start..i] + (sep + s[i + |sep|..]) == s[start..]
  {
  }

  /** Cutting takes out the separators and nothing else. */
  lemma {:induction false} CutRejoins(s: Bytes, sep: Bytes, start: nat)
    requires sep != [] && start <= |s|
    ensures Rejoined(Cut(s, sep, start), sep) == s[start..]
    decreases |s| - start
  {
    var i := Find(s, sep, start);
    if i >= 0 {
      var rest := Cut(s, sep, i + |sep|);
      CutRejoins(s, sep, i + |sep|);
      RejoinFront(s, sep, start, i, rest);
      CutStep(s, sep, start, i, rest);
    }
  }
}
