/** Stopping, starting again, and reconfiguring a sink that is not running. */
module StopClaims {
  import opened Splitting
  import opened Framing
  import opened SinkSteps
  import opened SinkRuns
  import opened SinkClaims

  /**
   A stop request ends the loop: all records accepted before are dealt with in order, the loop
   exits and the file is closed; after that the sink is idle and can be started again.
   */
  lemma {:induction false} StopStops(s: Sink, lines: seq<Bytes>, last: Bytes) returns (more: seq<Outcome>)
    requires FileInForce(s) && AllFaithful(s) && s.task.Running?
    requires NoStop(s.queue) && |lines| == |s.queue|
    ensures var t := Drain(DrainMany(RequestStop(s), lines), last);
            t.task.Exited? && t.file.None? && t.queue == [] &&
            t.past.done == s.past.done + more && HandledAs(more, s.queue, NextConfig(s)) &&
            Join(t).task.Idle? && RunsOn(Start(Join(t)), NextConfig(s)) && Start(Join(t)).queue == []
  {
    var r := RequestStop(s);
    EmptyRight(s.queue + [StopSign]);
    FaithfulFrame(s, r);
    more := StopDrainsFirst(r, s.queue, [], lines, last);
    StartsOn(Join(Drain(DrainMany(r, lines), last)));
  }

  /** The loop runs under this configuration, with its file open if it has one. */
  ghost predicate RunsOn(s: Sink, cfg: Config) {
    s.task.Running? && s.cfg == cfg && s.file == cfg.Target()
  }

  lemma StartsOn(s: Sink)
    requires s.task.Idle? && s.file.None?
    ensures RunsOn(Start(s), s.cfg) && Start(s).queue == s.queue && Start(s).pending == s.pending
  {
  }

  /** A sink that is not running takes a configuration at once: its next start opens that file, whatever was requested before. */
  lemma ConfigureThenStart(s: Sink, cfg: Config)
    requires s.task.Idle? && s.file.None?
    ensures var u := Start(Configure(s, cfg));
            RunsOn(u, cfg) && u.queue == s.queue && (NextConfig(u) == cfg <==> s.pending.None? || s.pending.value == cfg)
  {
    StartsOn(Configure(s, cfg));
  }

  /** Stopping a sink that is not running leaves nothing behind for its next start. */
  lemma StopWhenIdle(s: Sink)
    requires s.task.Idle? && s.file.None?
    ensures RunsOn(Start(RequestStop(s)), s.cfg) && Start(RequestStop(s)).queue == s.queue
  {
    StartsOn(RequestStop(s));
  }

  /**
   The life of the loop: only a start begins it, only the stop sign at the head of its queue ends
   it, and only the join makes the sink idle again.
   */
  lemma TaskCycle(s: Sink, a: Action)
    requires FileReady(s)
    ensures var t := Apply(s, a);
            (s.task.Idle? ==> t.task == if a.DoStart? then Running else Idle) &&
            (s.task.Running? ==> t.task == if a.DoDrain? && s.queue != [] && s.queue[0].stop then Exited else Running) &&
            (s.task.Exited? ==> t.task == if a.DoJoin? then Idle else Exited)
  {
    if a.DoDrain? && s.task.Running? && s.queue != [] {
      var rest := s.(queue := s.queue[1..]);
      PendingFrame(rest);
      if !IsControl(s.queue[0]) {
        PersistFrame(ApplyPending(rest), s.queue[0], a.line);
      }
    }
  }
}
