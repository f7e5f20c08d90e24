/** The incremental record framer (engine/framer.py). */
module Framing {
  import opened Splitting

  datatype Option<+T> = None | Some(value: T)

  datatype Mode = Lf | CrLf | RawChunk

  datatype Record = Record(payload: Bytes, truncated: bool)

  function Separator(mode: Mode): (sep: Bytes)
    requires !mode.RawChunk?
    ensures sep != []
  {
    if mode.Lf? then [LF] else [CR, LF]
  }

  function Clamp(max: nat, raw: Bytes): Record {
    if |raw| > max then Record(raw[..max], true) else Record(raw, false)
  }

  function ClampAll(max: nat, raws: seq<Bytes>): seq<Record> {
    if raws == [] then [] else [Clamp(max, raws[0])] + ClampAll(max, raws[1..])
  }

  /** The first separator after an overflow only ends the swallowed record. */
  function Unswallowed(overflow: bool, closed: seq<Bytes>): seq<Bytes> {
    if overflow && closed != [] then closed[1..] else closed
  }

  /** What a framer remembers between two calls. */
  datatype FramerState = FramerState(buf: Bytes, overflow: bool)

  const Empty := FramerState([], false)

  /** One `feed`: cut the buffer and the new data in one go. */
  function Fed(mode: Mode, max: nat, st: FramerState, data: Bytes): (FramerState, seq<Record>) {
    if data == [] then (st, [])
    else if mode.RawChunk? then (st, [Clamp(max, data)])
    else
      var c := Cut(st.buf + data, Separator(mode), 0);
      var complete := ClampAll(max, Unswallowed(st.overflow, c.closed));
      var swallowing := st.overflow && c.closed == [];
      if !swallowing && |c.tail| > max
      then (FramerState([], true), complete + [Clamp(max, c.tail)])
      else (FramerState(c.tail, swallowing), complete)
  }

  /** One `flush`: the unterminated tail, unless it was already reported as truncated. */
  function Flushed(mode: Mode, max: nat, st: FramerState): (FramerState, Option<Record>) {
    if mode.RawChunk? then (st, None)
    else if st.overflow || st.buf == [] then (Empty, None)
    else (Empty, Some(Clamp(max, st.buf)))
  }

  /** The cutting loop's state: `out` is emitted and `rest` is still to be cut off. */
  ghost predicate StillToCut(max: nat, overflow0: bool, c: Pieces, out: seq<Record>, overflow: bool, rest: Pieces) {
    c.tail == rest.tail &&
    ClampAll(max, Unswallowed(overflow0, c.closed)) == out + ClampAll(max, Unswallowed(overflow, rest.closed))
  }

  lemma CutOff(max: nat, overflow0: bool, c: Pieces, out: seq<Record>, overflow: bool, raw: Bytes, rest: Pieces)
    requires StillToCut(max, overflow0, c, out, overflow, Front(raw, rest))
    ensures overflow ==> StillToCut(max, overflow0, c, out, false, rest)
    ensures !overflow ==> StillToCut(max, overflow0, c, out + [Clamp(max, raw)], false, rest)
  {
    HeadTail(raw, rest.closed);
    Associative(out, [Clamp(max, raw)], ClampAll(max, rest.closed));
  }

  /** The same for the piece that the next separator closes. */
  lemma CutOffNext(max: nat, overflow0: bool, c: Pieces, out: seq<Record>, overflow: bool, buf: Bytes, sep: Bytes, start: nat)
    requires sep != [] && start <= |buf| && Find(buf, sep, start) >= 0
    requires StillToCut(max, overflow0, c, out, overflow, Cut(buf, sep, start))
    ensures var idx := Find(buf, sep, start);
            var rest := Cut(buf, sep, idx + |sep|);
            (overflow ==> StillToCut(max, overflow0, c, out, false, rest)) &&
            (!overflow ==> StillToCut(max, overflow0, c, out + [Clamp(max, buf[start..idx])], false, rest))
  {
    var idx := Find(buf, sep, start);
    var rest := Cut(buf, sep, idx + |sep|);
    assert Cut(buf, sep, start) == Front(buf[start..idx], rest);
    CutOff(max, overflow0, c, out, overflow, buf[start..idx], rest);
  }

  lemma AllCutOff(max: nat, overflow0: bool, c: Pieces, out: seq<Record>, overflow: bool, tail: Bytes)
    requires StillToCut(max, overflow0, c, out, overflow, Pieces([], tail))
    ensures c.tail == tail && out == ClampAll(max, Unswallowed(overflow0, c.closed))
  {
  }

  class Framer {
    const mode: Mode
    const max: nat
    var buf: Bytes
    var overflow: bool

    ghost function State(): FramerState
      reads this
    {
      FramerState(buf, overflow)
    }

    constructor (mode: Mode, max: nat)
      requires max > 0
      ensures this.mode == mode && this.max == max && State() == Empty
    {
      this.mode, this.max := mode, max;
      buf, overflow := [], false;
    }

    method Feed(data: Bytes) returns (out: seq<Record>)
      modifies this
      ensures (State(), out) == Fed(mode, max, old(State()), data)
    {
      if data == [] {
        return [];
      }
      if mode == RawChunk {
        return [Clamp(max, data)];
      }
      buf := buf + data;
      out := TakeRecords();
      if !overflow && |buf| > max {
        out := out + [Record(buf[..max], true)];
        buf := [];
        overflow := true;
      }
    }

    /** The cutting loop: emit every closed record, keep the unterminated tail. */
    method TakeRecords() returns (out: seq<Record>)
      requires !mode.RawChunk?
      modifies this
      ensures var c := Cut(old(buf), Separator(mode), 0);
              State() == FramerState(c.tail, old(overflow) && c.closed == []) &&
              out == ClampAll(max, Unswallowed(old(overflow), c.closed))
    {
      var sep := Separator(mode);
      out := [];
      var start := 0;
      ghost var whole, c := buf, Cut(buf, sep, 0);
      while true
        invariant 0 <= start <= |buf| && buf == whole
        invariant overflow == (old(overflow) && start == 0)
        invariant start > 0 ==> c.closed != []
        invariant StillToCut(max, old(overflow), c, out, overflow, Cut(whole, sep, start))
        decreases |buf| - start
      {
        var idx := Find(buf, sep, start);
        if idx < 0 {
          break;
        }
        var raw := buf[start..idx];
        CutOffNext(max, old(overflow), c, out, overflow, whole, sep, start);
        start := idx + |sep|;
        if overflow {
          overflow := false;
          continue;
        }
        out := out + [Clamp(max, raw)];
      }
      AllCutOff(max, old(overflow), c, out, overflow, buf[start..]);
      if start > 0 {
        buf := buf[start..];
      }
    }

    method Flush() returns (record: Option<Record>)
      modifies this
      ensures (State(), record) == Flushed(mode, max, old(State()))
    {
      if mode == RawChunk {
        return None;
      }
      if overflow {
        buf, overflow := [], false;
        return None;
      }
      if buf == [] {
        return None;
      }
      record := Some(Clamp(max, buf));
      buf := [];
    }

    method Reset()
      modifies this
      ensures State() == Empty
    {
      buf, overflow := [], false;
    }
  }
}
