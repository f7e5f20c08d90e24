/** The send scheduler object, which carries out the steps in place. */
module Scheduling {
  import opened Splitting
  import opened Framing
  import opened LineControls
  import opened S = SchedulerSteps

  class SendScheduler {
    var source: seq<Bytes>
    var active: seq<Bytes>
    var loop: bool
    var controls: Controls
    var cursor: nat
    var generation: nat
    var pendingHeader: Option<Bytes>
    var pendingSwap: Option<Swap>

    ghost function State(): Scheduler
      reads this
    {
      Scheduler(source, active, loop, controls, cursor, generation, pendingHeader, pendingSwap)
    }

    ghost predicate Valid()
      reads this
    {
      Checked(State())
    }

    constructor (records: seq<Bytes>, loop: bool)
      ensures Valid() && State() == S.Initial(records, loop)
    {
      source, active, this.loop := records, records, loop;
      controls, cursor, generation := AllLines, 0, 0;
      pendingHeader, pendingSwap := None, None;
    }

    method SetRecords(records: seq<Bytes>)
      requires Valid()
      modifies this
      ensures Valid() && State() == S.SetRecords(old(State()), records)
    {
      source := records;
      RebuildActiveRecords();
    }

    method RequestFileSwap(records: seq<Bytes>, header: Option<Bytes>)
      requires Valid()
      modifies this
      ensures Valid() && State() == RequestSwap(old(State()), records, header)
    {
      pendingSwap := Some(Swap(records, header));
    }

    method SetLineControls(c: Controls) returns (error: Option<ControlError>)
      requires Valid()
      modifies this
      ensures Valid() && (State(), error) == SetControls(old(State()), c)
    {
      error := c.Check();
      if error.Some? {
        return;
      }
      controls := c;
      RebuildActiveRecords();
    }

    method JumpTo(line: int) returns (error: Option<ControlError>)
      requires Valid()
      modifies this
      ensures Valid() && (State(), error) == Jump(old(State()), line)
    {
      if line < 1 || line > |active| {
        return Some(LineOutOfRange);
      }
      cursor := line - 1;
      return None;
    }

    method Step() returns (message: Option<Message>)
      requires Valid()
      modifies this
      ensures Valid() && (State(), message) == S.Step(old(State()))
    {
      ApplyPendingSwapIfAny();
      if pendingHeader.Some? {
        message := Some(Message(pendingHeader.value, generation, true, 0));
        pendingHeader := None;
        return;
      }
      if active == [] {
        return None;
      }
      if cursor >= |active| {
        if !loop {
          return None;
        }
        cursor := 0;
      }
      message := Some(Message(active[cursor], generation, false, cursor + 1));
      cursor := cursor + 1;
    }

    method ApplyPendingSwapIfAny()
      requires Valid()
      modifies this
      ensures Valid() && State() == Applied(old(State()))
    {
      if pendingSwap.None? {
        return;
      }
      var swap := pendingSwap.value;
      pendingSwap := None;
      source := swap.records;
      RebuildActiveRecords();
      generation := generation + 1;
      pendingHeader := swap.header;
    }

    method RebuildActiveRecords()
      requires Valid()
      modifies this
      ensures Valid() && State() == Rebuilt(old(State()))
    {
      var start := if controls.start.Some? then controls.start.value - 1 else 0;
      var end := if controls.end.Some? && controls.end.value < |source| then controls.end.value else |source|;
      var filtered: seq<Bytes> := [];
      if start < |source| {
        filtered := source[start..end];
      }
      if controls.firstN.Some? && controls.firstN.value < |filtered| {
        filtered := filtered[..controls.firstN.value];
      }
      active := filtered;
      cursor := 0;
    }
  }
}
