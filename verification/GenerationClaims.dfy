/** File generations never interleave in what the scheduler plays. */
module GenerationClaims {
  import opened Splitting
  import opened Framing
  import opened LineControls
  import opened SchedulerSteps
  import opened SchedulerClaims

  /** A message, and the line controls at the moment it was played. */
  datatype Sent = Sent(message: Message, controls: Controls)

  /** The scheduler, all it has played, and the file of every generation so far. */
  datatype Play = Play(s: Scheduler, sent: seq<Sent>, files: seq<Swap>)

  function Begin(records: seq<Bytes>, loop: bool): Play {
    Play(Initial(records, loop), [], [Swap(records, None)])
  }

  function Continue(p: Play, call: Call): (after: Play)
    requires Checked(p.s)
    ensures Checked(after.s)
  {
    if !call.DoStep? then p.(s := SchedulerClaims.Next(p.s, call))
    else
      var (t, m) := Step(p.s);
      Play(t, if m.Some? then p.sent + [Sent(m.value, t.controls)] else p.sent,
           if p.s.pendingSwap.Some? then p.files + [p.s.pendingSwap.value] else p.files)
  }

  function PlayAll(p: Play, calls: seq<Call>): (after: Play)
    requires Checked(p.s)
    ensures Checked(after.s)
  {
    if calls == [] then p else Continue(PlayAll(p, calls[..|calls| - 1]), calls[|calls| - 1])
  }

  /** Message `i` begins its generation. */
  predicate Begins(sent: seq<Sent>, i: nat)
    requires i < |sent|
  {
    i == 0 || sent[i - 1].message.generation < sent[i].message.generation
  }

  /**
   Message `i` is not of an older generation than the one before.  It is a header exactly if it
   begins its generation and the file has a header; else it is a line of the file's window.
   */
  ghost predicate RightAt(files: seq<Swap>, sent: seq<Sent>, i: nat)
    requires i < |sent|
  {
    var m, c := sent[i].message, sent[i].controls;
    m.generation < |files| && c.Check().None? &&
    (i > 0 ==> sent[i - 1].message.generation <= m.generation) &&
    (m.isHeader <==> Begins(sent, i) && files[m.generation].header.Some?) &&
    if m.isHeader then files[m.generation].header == Some(m.payload)
    else
      var window := Window(files[m.generation].records, c);
      1 <= m.line <= |window| && m.payload == window[m.line - 1]
  }

  function LastGeneration(sent: seq<Sent>): int {
    if sent == [] then -1 else sent[|sent| - 1].message.generation
  }

  ghost predicate Right(p: Play) {
    Sound(p.s) && |p.files| == p.s.generation + 1 && p.files[p.s.generation].records == p.s.source &&
    LastGeneration(p.sent) <= p.s.generation &&
    (p.files[p.s.generation].header.Some? ==> LastGeneration(p.sent) == p.s.generation) &&
    forall i | 0 <= i < |p.sent| :: RightAt(p.files, p.sent, i)
  }

  lemma RightMore(files: seq<Swap>, more: seq<Swap>, sent: seq<Sent>, rest: seq<Sent>)
    requires forall i | 0 <= i < |sent| :: RightAt(files, sent, i)
    ensures forall i | 0 <= i < |sent| :: RightAt(files + more, sent + rest, i)
  {
    forall i | 0 <= i < |sent| ensures RightAt(files + more, sent + rest, i) {
      assert RightAt(files, sent, i);
    }
  }

  /** A step that finds a swap begins a generation. */
  lemma SwapRight(p: Play)
    requires Right(p) && p.s.pendingSwap.Some?
    ensures Right(Continue(p, DoStep))
  {
    StepSound(p.s);
    var q, n := Continue(p, DoStep), |p.sent|;
    RightMore(p.files, [p.s.pendingSwap.value], p.sent, q.sent[n..]);
    assert p.sent + q.sent[n..] == q.sent;
    assert n < |q.sent| ==> RightAt(q.files, q.sent, n);
  }

  lemma LineRight(p: Play)
    requires Right(p) && p.s.pendingSwap.None?
    ensures Right(Continue(p, DoStep))
  {
    StepPlays(p.s);
    var q, n := Continue(p, DoStep), |p.sent|;
    StepSound(p.s);
    RightMore(p.files, [], p.sent, q.sent[n..]);
    assert p.sent + q.sent[n..] == q.sent && p.files + [] == p.files;
    assert n < |q.sent| ==> RightAt(q.files, q.sent, n);
  }

  lemma OtherRight(p: Play, call: Call)
    requires Right(p) && !call.DoStep? && !call.DoRecords?
    ensures Right(Continue(p, call))
  {
  }

  lemma {:induction false} PlayRight(p: Play, calls: seq<Call>)
    requires Right(p) && forall call | call in calls :: !call.DoRecords?
    ensures Right(PlayAll(p, calls))
  {
    if calls != [] {
      var n := |calls| - 1;
      var q := PlayAll(p, calls[..n]);
      PlayRight(p, calls[..n]);
      if !calls[n].DoStep? {
        OtherRight(q, calls[n]);
      } else if q.s.pendingSwap.Some? {
        SwapRight(q);
      } else {
        LineRight(q);
      }
    }
  }

  /**
   Whatever steps, swaps, jumps and line controls there are: generations never decrease, the
   header of a swapped-in file is played exactly once and before its lines, and every line is
   from the window of its generation's file under the controls of the moment.
   */
  lemma GenerationsInOrder(records: seq<Bytes>, loop: bool, calls: seq<Call>)
    requires forall call | call in calls :: !call.DoRecords?
    ensures var p := PlayAll(Begin(records, loop), calls);
            forall i | 0 <= i < |p.sent| :: RightAt(p.files, p.sent, i)
  {
    assert Window(records, AllLines) == records;
    PlayRight(Begin(records, loop), calls);
  }
}
