/** What the scheduler plays after a jump, after new line controls, and after a new file. */
module ControlClaims {
  import opened Splitting
  import opened Framing
  import opened LineControls
  import opened SchedulerSteps
  import opened SchedulerClaims

  /** The message of step `k`, if nothing is called before. */
  function Plays(s: Scheduler, k: nat): Option<Message>
    requires Checked(s)
  {
    Step(After(s, k)).1
  }

  /** Line `i` of a window, counted from 0, as a message; there is none beyond the end. */
  function LineOf(window: seq<Bytes>, generation: nat, i: nat): Option<Message> {
    if i < |window| then Some(Message(window[i], generation, false, i + 1)) else None
  }

  /** Which line comes `k` steps after line `first`: over and over when looping, once when not. */
  function Index(n: nat, loop: bool, first: nat, k: nat): nat {
    if loop && n > 0 then (first + k) % n else first + k
  }

  /** The lines of a window from `first` on. */
  ghost predicate PlaysFrom(s: Scheduler, window: seq<Bytes>, generation: nat, first: nat)
    requires Checked(s)
  {
    forall k: nat :: Plays(s, k) == LineOf(window, generation, Index(|window|, s.loop, first, k))
  }

  lemma LineOfTurn(window: seq<Bytes>, generation: nat, loop: bool, first: nat, k: nat)
    ensures var turn := Turn(first, |window|, loop, k);
            LineOf(window, generation, Index(|window|, loop, first, k)) ==
              if turn.None? then None else Some(Message(window[turn.value], generation, false, turn.value + 1))
  {
  }

  lemma PlaysOn(s: Scheduler)
    requires Sound(s) && s.pendingSwap.None?
    ensures PlaysFrom(s, s.active, s.generation, s.cursor)
  {
    forall k: nat ensures Plays(s, k) == LineOf(s.active, s.generation, Index(|s.active|, s.loop, s.cursor, k)) {
      PlaysInOrder(s, k);
      LineOfTurn(s.active, s.generation, s.loop, s.cursor, k);
    }
  }

  // ----- Jumps -----------------------------------------------------------

  /**
   A jump is accepted exactly if there is such a line.  Then the very next step plays that line, and
   the ones after it go on from there; a refused jump leaves what is played as it was.
   */
  lemma JumpPlays(s: Scheduler, line: int)
    requires Sound(s) && s.pendingSwap.None?
    ensures var (t, error) := Jump(s, line);
            (error.None? <==> 1 <= line <= |s.active|) && Sound(t) &&
            (error.None? ==> PlaysFrom(t, s.active, s.generation, line - 1) && t.loop == s.loop) &&
            (error.Some? ==> t == s)
  {
    if 1 <= line <= |s.active| {
      PlaysOn(Jump(s, line).0);
    }
  }

  /** The message right after a jump. */
  lemma JumpNext(s: Scheduler, line: int)
    requires Sound(s) && s.pendingSwap.None? && 1 <= line <= |s.active|
    ensures Step(Jump(s, line).0).1 == Some(Message(s.active[line - 1], s.generation, false, line))
  {
    var t := Jump(s, line).0;
    JumpPlays(s, line);
    assert Plays(t, 0) == Step(t).1;
    if s.loop {
      Small(line - 1, |s.active|);
    }
  }

  lemma Small(a: nat, n: nat)
    requires a < n
    ensures a % n == a
  {
  }

  // ----- Line controls ---------------------------------------------------

  /** Line controls are accepted exactly if they are positive and in order, as far as they are given. */
  lemma ControlsAccepted(c: Controls)
    ensures c.Check().None? <==>
              (c.start.Some? ==> c.start.value >= 1) && (c.end.Some? ==> c.end.value >= 1) &&
              (c.firstN.Some? ==> c.firstN.value >= 1) && (c.start.Some? && c.end.Some? ==> c.start.value <= c.end.value)
  {
  }

  /** Accepted controls take effect at once: the next step plays the first line of their window; others change nothing. */
  lemma ControlsPlay(s: Scheduler, c: Controls)
    requires Sound(s) && s.pendingSwap.None?
    ensures var (t, error) := SetControls(s, c);
            (error.None? <==> c.Check().None?) && Sound(t) &&
            (error.None? ==> PlaysFrom(t, Window(s.source, c), s.generation, 0) && t.controls == c && t.loop == s.loop) &&
            (error.Some? ==> t == s)
  {
    if c.Check().None? {
      PlaysOn(SetControls(s, c).0);
    }
  }

  /** New records take effect at once as well, under the controls in force. */
  lemma RecordsPlay(s: Scheduler, records: seq<Bytes>)
    requires Sound(s) && s.pendingSwap.None?
    ensures var t := SetRecords(s, records);
            Sound(t) && PlaysFrom(t, Window(records, s.controls), s.generation, 0) && t.loop == s.loop
  {
    PlaysOn(SetRecords(s, records));
  }

  // ----- File swaps ------------------------------------------------------

  lemma {:induction false} AfterStep(s: Scheduler, k: nat)
    requires Checked(s) && k > 0
    ensures After(s, k) == After(Step(s).0, k - 1)
  {
    if k > 1 {
      AfterStep(s, k - 1);
      StepSame(After(s, k - 1), After(Step(s).0, k - 2));
    }
  }

  lemma StepSame(a: Scheduler, b: Scheduler)
    requires Checked(a) && a == b
    ensures Step(a).0 == Step(b).0
  {
  }

  lemma PlaysAfter(s: Scheduler, k: nat)
    requires Checked(s)
    ensures Plays(s, k + 1) == Plays(Step(s).0, k)
  {
    AfterStep(s, k + 1);
  }

  /** With a swap pending, the next step begins the next generation: with the file's header, if it has one, else its lines. */
  lemma PendingPlays(s: Scheduler)
    requires Sound(s) && s.pendingSwap.Some?
    ensures var swap, window := s.pendingSwap.value, Window(s.pendingSwap.value.records, s.controls);
            var t := Step(s).0;
            if swap.header.Some? then
              Plays(s, 0) == Some(Message(swap.header.value, s.generation + 1, true, 0)) &&
              PlaysFrom(t, window, s.generation + 1, 0) && t.loop == s.loop
            else PlaysFrom(s, window, s.generation + 1, 0)
  {
    if s.pendingSwap.value.header.Some? {
      StepSound(s);
      PlaysOn(Step(s).0);
    } else {
      PlaysApplied(s);
    }
  }

  /** Without a header a pending swap might as well be applied already. */
  lemma PlaysApplied(s: Scheduler)
    requires Sound(s) && s.pendingSwap.Some? && s.pendingSwap.value.header.None?
    ensures PlaysFrom(s, Window(s.pendingSwap.value.records, s.controls), s.generation + 1, 0)
  {
    var t := Applied(s);
    AppliedSound(s);
    PlaysOn(t);
    forall k: nat ensures Plays(s, k) == Plays(t, k) {
      AppliedFirst(s, k);
    }
    PlaysAlike(s, t, t.active, t.generation, 0);
  }

  lemma AppliedSound(s: Scheduler)
    requires Sound(s) && s.pendingSwap.Some? && s.pendingSwap.value.header.None?
    ensures var t := Applied(s);
            Sound(t) && t.pendingSwap.None? && t.cursor == 0 && t.loop == s.loop && t.generation == s.generation + 1 &&
            t.active == Window(s.pendingSwap.value.records, s.controls)
  {
  }

  lemma PlaysAlike(s: Scheduler, t: Scheduler, window: seq<Bytes>, generation: nat, first: nat)
    requires Checked(s) && Checked(t) && s.loop == t.loop && forall k: nat :: Plays(s, k) == Plays(t, k)
    requires PlaysFrom(t, window, generation, first)
    ensures PlaysFrom(s, window, generation, first)
  {
    forall k: nat ensures Plays(s, k) == LineOf(window, generation, Index(|window|, s.loop, first, k)) {
      assert Plays(t, k) == LineOf(window, generation, Index(|window|, t.loop, first, k));
    }
  }

  lemma AppliedFirst(s: Scheduler, k: nat)
    requires Checked(s)
    ensures Plays(s, k) == Plays(Applied(s), k)
  {
    AppliedTwice(s);
    if k > 0 {
      PlaysAfter(s, k - 1);
      PlaysAfter(Applied(s), k - 1);
    }
  }

  lemma AppliedTwice(s: Scheduler)
    requires Checked(s)
    ensures Applied(Applied(s)) == Applied(s) && Step(Applied(s)) == Step(s)
  {
  }

  /** A requested file is played from the next step on: its header first, and its lines under the controls; the last request wins. */
  lemma SwapPlays(s: Scheduler, records: seq<Bytes>, header: Option<Bytes>)
    requires Sound(s)
    ensures var t := RequestSwap(s, records, header);
            Sound(t) && t.loop == s.loop &&
            if header.Some? then
              Plays(t, 0) == Some(Message(header.value, s.generation + 1, true, 0)) &&
              PlaysFrom(Step(t).0, Window(records, s.controls), s.generation + 1, 0)
            else PlaysFrom(t, Window(records, s.controls), s.generation + 1, 0)
  {
    PendingPlays(RequestSwap(s, records, header));
  }
}
