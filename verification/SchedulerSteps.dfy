/** The send scheduler (engine/scheduler.py) as functions of its state. */
module SchedulerSteps {
  import opened Splitting
  import opened Framing
  import opened LineControls

  datatype Message = Message(payload: Bytes, generation: nat, isHeader: bool, line: nat)

  datatype Swap = Swap(records: seq<Bytes>, header: Option<Bytes>)

  datatype Scheduler = Scheduler(
    source: seq<Bytes>, active: seq<Bytes>, loop: bool, controls: Controls, cursor: nat,
    generation: nat, pendingHeader: Option<Bytes>, pendingSwap: Option<Swap>)

  function Initial(records: seq<Bytes>, loop: bool): Scheduler {
    Scheduler(records, records, loop, AllLines, 0, 0, None, None)
  }

  /** Controls were checked before they were stored. */
  predicate Checked(s: Scheduler) {
    s.controls.Check().None?
  }

  function Rebuilt(s: Scheduler): Scheduler
    requires Checked(s)
  {
    s.(active := Window(s.source, s.controls), cursor := 0)
  }

  function Applied(s: Scheduler): (after: Scheduler)
    requires Checked(s)
    ensures Checked(after)
  {
    if s.pendingSwap.None? then s
    else
      var next := Rebuilt(s.(source := s.pendingSwap.value.records, pendingSwap := None));
      next.(generation := s.generation + 1, pendingHeader := s.pendingSwap.value.header)
  }

  function Emitted(s: Scheduler): (Scheduler, Option<Message>) {
    if s.pendingHeader.Some? then
      (s.(pendingHeader := None), Some(Message(s.pendingHeader.value, s.generation, true, 0)))
    else if s.active == [] || (s.cursor >= |s.active| && !s.loop) then (s, None)
    else
      var i := if s.cursor >= |s.active| then 0 else s.cursor;
      (s.(cursor := i + 1), Some(Message(s.active[i], s.generation, false, i + 1)))
  }

  function Step(s: Scheduler): (Scheduler, Option<Message>)
    requires Checked(s)
  {
    Emitted(Applied(s))
  }

  function RequestSwap(s: Scheduler, records: seq<Bytes>, header: Option<Bytes>): Scheduler {
    s.(pendingSwap := Some(Swap(records, header)))
  }

  function SetControls(s: Scheduler, c: Controls): (result: (Scheduler, Option<ControlError>)) {
    if c.Check().Some? then (s, c.Check()) else (Rebuilt(s.(controls := c)), None)
  }

  function Jump(s: Scheduler, line: int): (Scheduler, Option<ControlError>) {
    if line < 1 || line > |s.active| then (s, Some(LineOutOfRange)) else (s.(cursor := line - 1), None)
  }

  function SetRecords(s: Scheduler, records: seq<Bytes>): Scheduler
    requires Checked(s)
  {
    Rebuilt(s.(source := records))
  }
}
