/** What the scheduler plays, whatever calls come between its steps. */
module SchedulerClaims {
  import opened Splitting
  import opened Framing
  import opened LineControls
  import opened SchedulerSteps

  /** The state between two calls: a window of the source, a cursor within it, no header left over. */
  ghost predicate Sound(s: Scheduler) {
    Checked(s) && s.active == Window(s.source, s.controls) && s.cursor <= |s.active| && s.pendingHeader.None?
  }

  datatype Call =
    | DoStep
    | DoSwap(records: seq<Bytes>, header: Option<Bytes>)
    | DoControls(controls: Controls)
    | DoJump(line: int)
    | DoRecords(records: seq<Bytes>)

  function Next(s: Scheduler, call: Call): (after: Scheduler)
    requires Checked(s)
    ensures Checked(after)
  {
    match call
    case DoStep => Step(s).0
    case DoSwap(records, header) => RequestSwap(s, records, header)
    case DoControls(controls) => SetControls(s, controls).0
    case DoJump(line) => Jump(s, line).0
    case DoRecords(records) => SetRecords(s, records)
  }

  function Run(s: Scheduler, calls: seq<Call>): (after: Scheduler)
    requires Checked(s)
    ensures Checked(after)
  {
    if calls == [] then s else Next(Run(s, calls[..|calls| - 1]), calls[|calls| - 1])
  }

  /** A header is sent in the very step that applies its swap. */
  lemma StepSound(s: Scheduler)
    requires Sound(s)
    ensures var (t, m) := Step(s);
            Sound(t) &&
            (m.Some? && !m.value.isHeader ==>
              1 <= m.value.line <= |t.active| && m.value.payload == t.active[m.value.line - 1] &&
              t.cursor == m.value.line && m.value.generation == t.generation) &&
            (m.Some? && m.value.isHeader <==> s.pendingSwap.Some? && s.pendingSwap.value.header.Some?) &&
            (m.Some? && m.value.isHeader ==>
              m.value == Message(s.pendingSwap.value.header.value, s.generation + 1, true, 0) && t.generation == s.generation + 1)
  {
  }

  /** The cursor stays within the window in every interleaving of calls. */
  lemma {:induction false} SoundRun(s: Scheduler, calls: seq<Call>)
    requires Sound(s)
    ensures Sound(Run(s, calls))
  {
    if calls != [] {
      var n := |calls| - 1;
      SoundRun(s, calls[..n]);
      if calls[n].DoStep? {
        StepSound(Run(s, calls[..n]));
      }
    }
  }

  // ----- Undisturbed steps -----------------------------------------------

  /** After `k` steps and nothing else. */
  function After(s: Scheduler, k: nat): (after: Scheduler)
    requires Checked(s)
    ensures Checked(after)
  {
    if k == 0 then s else Step(After(s, k - 1)).0
  }

  lemma ModNext(a: nat, n: nat)
    requires n > 0
    ensures (a + 1) % n == if a % n == n - 1 then 0 else a % n + 1
  {
    var q, r := a / n, a % n;
    assert a + 1 == q * n + (r + 1);
    if r == n - 1 {
      assert a + 1 == (q + 1) * n + 0;
      DivMod(q + 1, n, 0);
    } else {
      DivMod(q, n, r + 1);
    }
  }

  lemma DivMod(q: nat, n: nat, r: nat)
    requires r < n
    ensures (q * n + r) % n == r
  {
    var m := q * n + r;
    assert m == (m / n) * n + m % n;
    assert (q - m / n) * n == m % n - r;
    if q > m / n {
      Apart(q - m / n, n);
    } else if q < m / n {
      Apart(m / n - q, n);
    }
  }

  lemma Apart(d: nat, n: nat)
    requires d >= 1
    ensures d * n >= n
  {
  }

  /** The line to play at a cursor in a window of `n` lines, if any. */
  function LineAt(cursor: nat, n: nat, loop: bool): (i: Option<nat>)
    ensures i.Some? ==> i.value < n
  {
    if n == 0 || (cursor >= n && !loop) then None else Some(if cursor >= n then 0 else cursor)
  }

  /** The cursor after the line at this one, if any, is played. */
  function CursorNext(cursor: nat, n: nat, loop: bool): nat {
    var i := LineAt(cursor, n, loop);
    if i.None? then cursor else i.value + 1
  }

  function CursorAfter(cursor: nat, n: nat, loop: bool, k: nat): nat {
    if k == 0 then cursor else CursorNext(CursorAfter(cursor, n, loop, k - 1), n, loop)
  }

  /** Cyclic when looping, finite when not. */
  function Turn(cursor: nat, n: nat, loop: bool, k: nat): (i: Option<nat>)
    ensures i.Some? ==> i.value < n
  {
    if n > 0 && loop then Some((cursor + k) % n) else if cursor + k < n then Some(cursor + k) else None
  }

  lemma {:induction false} LoopingCursor(cursor: nat, n: nat, k: nat)
    requires n > 0 && cursor <= n
    ensures LineAt(CursorAfter(cursor, n, true, k), n, true) == Some((cursor + k) % n)
  {
    if k > 0 {
      LoopingCursor(cursor, n, k - 1);
      LoopingNext(CursorAfter(cursor, n, true, k - 1), n, cursor + k - 1);
    } else if cursor == n {
      DivMod(1, n, 0);
    } else {
      DivMod(0, n, cursor);
    }
  }

  lemma LoopingNext(at: nat, n: nat, played: nat)
    requires n > 0 && LineAt(at, n, true) == Some(played % n)
    ensures LineAt(CursorNext(at, n, true), n, true) == Some((played + 1) % n)
  {
    ModNext(played, n);
  }

  lemma {:induction false} FiniteCursor(cursor: nat, n: nat, k: nat)
    requires cursor <= n
    ensures CursorAfter(cursor, n, false, k) == if cursor + k < n then cursor + k else n
  {
    if k > 0 {
      FiniteCursor(cursor, n, k - 1);
    }
  }

  lemma TurnIs(cursor: nat, n: nat, loop: bool, k: nat)
    requires cursor <= n
    ensures LineAt(CursorAfter(cursor, n, loop, k), n, loop) == Turn(cursor, n, loop, k)
  {
    if n > 0 && loop {
      LoopingCursor(cursor, n, k);
    } else if !loop {
      FiniteCursor(cursor, n, k);
    }
  }

  lemma StepPlays(s: Scheduler)
    requires Sound(s) && s.pendingSwap.None?
    ensures var i := LineAt(s.cursor, |s.active|, s.loop);
            Step(s) == if i.None? then (s, None)
                       else (s.(cursor := i.value + 1), Some(Message(s.active[i.value], s.generation, false, i.value + 1)))
  {
  }

  lemma StepAdvances(s: Scheduler, cursor: nat)
    requires Sound(s.(cursor := cursor)) && s.pendingSwap.None?
    ensures var t := Step(s.(cursor := cursor)).0;
            t == s.(cursor := CursorNext(cursor, |s.active|, s.loop)) && Sound(t)
  {
    StepPlays(s.(cursor := cursor));
  }

  lemma {:induction false} AfterIs(s: Scheduler, k: nat)
    requires Sound(s) && s.pendingSwap.None?
    ensures After(s, k) == s.(cursor := CursorAfter(s.cursor, |s.active|, s.loop, k)) && Sound(After(s, k))
  {
    if k > 0 {
      AfterIs(s, k - 1);
      StepAdvances(s, CursorAfter(s.cursor, |s.active|, s.loop, k - 1));
    }
  }

  /**
   The scheduler as a sequence: without calls in between, step number k plays record
   (cursor + k) mod n when looping, and record cursor + k, then nothing more, when not.
   */
  lemma PlaysInOrder(s: Scheduler, k: nat)
    requires Sound(s) && s.pendingSwap.None?
    ensures var turn := Turn(s.cursor, |s.active|, s.loop, k);
            Step(After(s, k)).1 ==
              if turn.None? then None else Some(Message(s.active[turn.value], s.generation, false, turn.value + 1))
  {
    AfterIs(s, k);
    StepPlays(After(s, k));
    TurnIs(s.cursor, |s.active|, s.loop, k);
  }
}
