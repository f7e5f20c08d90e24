# Verification of the traffic simulator's two pipelines

This project models the receiving and the sending pipeline of the TCP/UDP traffic simulator in
Dafny and proves what they keep. `dafny verify dfyconfig.toml` checks all of it.

Both pipelines are asyncio programs whose coroutines are atomic between two awaits, so each is
modelled as a step system whose steps are the stretches of code between awaits. Every part has
three layers: pure step functions of an abstract state, classes whose methods change their
fields in place and are proved equal to those functions, and lemmas about every run of the
step system.

**Receiving.** `Splitting`, `Framing` and `Chunking` give the framer and a stream-level meaning
that does not mention chunks; `CrLfChunking` and `CutPoints` say exactly when CR LF framing
deviates from it, and `RawChunks` covers RAW_CHUNK.
`FramerBudget` and `WorstBytes` give the exact number of payload bytes one read can produce.
`Rotation`, `SinkSteps`, `SinkWriting`, `SinkRuns` and `SinkClaims` cover the sink: bounded
queue, watermarks, drain loop, rotation on disk, live reconfiguration. `StopClaims` is about
stopping and starting it, and `WrittenClaims` says what it accepts, writes and rotates in terms
of the actions of a run alone. `ReceiverSteps`, `Receiving`, `ReceiverPause`, `ReceiverCapacity`,
`CapacityExact` and `EndToEnd` put peers, read gate, engine and sink together, and `Arrivals`
says what arrives of each connection in terms of the steps of a run. `RoundTrip` reads the
retained files back through a framer.

**Sending.** `ConnectionSteps` and `Connections` are the per-client queues, `BroadcastSteps`,
`Broadcasting` and `BroadcastClaims` the TCP sender with its ready set, `LineControls`,
`SchedulerSteps`, `SchedulerClaims`, `ControlClaims`, `GenerationClaims` and `Scheduling` the scheduler, and
`SenderPipeline` and `HeaderClaims` the two together, file swaps and connect-time headers
included. `OverlapClaims` says what overlapping broadcasts and ids used again too soon do.
`RecipientSteps`, `RecipientClaims` and `UdpRecipients` are the UDP recipient cache;
`RowSelection`, `FileReading` and `SelectionClaims` the file reader.

## Where the code and its documentation disagree

The model follows the code.

- The README promises that pausing TCP reads loses no data (README.md:142). The gate is passed
  before a read that may still deliver a whole burst (tcp_server_receiver.py:161-173), so this
  holds if and only if the queue has room for one burst of every peer above the high watermark:
  `CapacityExact.CapacityIsExact`, with a losing run in `CapacityExact.WorstRun`. The limits on a
  configuration (sink_writer.py:62-63) do not imply it. The "only if" half is about the step
  system, in which any step may follow any other. An asyncio drain loop does not suspend between
  items while its queue is not empty (sink_writer.py:216, 232), so it then empties the queue in
  one go; the losing run needs the peers to be scheduled before it, and no turn of it in between.
  The losing run also lets every peer read once more after the transport has stopped running,
  which needs `wait_closed` to suspend (tcp_server_receiver.py:105). On Python versions before
  3.12 it returns at once, and the peers are cancelled instead.
- The sink promises reconfiguration "without dropping in-flight records" (sink_writer.py:8-10).
  Records in flight are handled under the new configuration, so they survive if and only if
  there are none or the new configuration has a file: `SinkClaims.InFlightSurvives`, and
  `SinkClaims.DisablingLosesRecord` for a loss.
- A `configure` that comes after the loop has taken the stop sign, and before `stop` is done, stays
  pending (sink_writer.py:147-179). A later one on the idle sink takes effect at once, but the first
  turn after the next start then brings back the older one: `StopClaims.ConfigureThenStart`.
- CR LF framing is presented like LF framing, but an overflow that clears a buffer ending in CR
  destroys half a separator (framer.py:112-117). `CutPoints.CrLfChunkIndependence` says exactly
  which cuts of a stream do this, in terms of the stream and the cuts alone.
- Slow clients are to be disconnected when blocked longer than the timeout and cleared below the
  low watermark (docs/design-and-requirements.md:209, FR-32b). The code uses "at least" and "at or
  below" (connection_manager.py:87, :104).
- A file swap is to be generation-safe for each client (docs/design-and-requirements.md:184,
  FR-20e). The new connect-time header takes effect at once (gui/controller.py:456-467), while the
  swap waits for the next scheduler step; that step plays nothing of the old file any more. The
  promise fails only where a message already waits for a client (gui/controller.py:507-515): a
  client that connects then gets the new header and right behind it that one old message.
  `HeaderClaims.GoesBackIffHeld` is the exact condition, `HeaderClaims.OldAfterNew` a run.
- FR-20f (line 185) has the new header sent once to a connected client. A client that connects
  while the swap is pending and no message is held gets it twice, when it connects and as the first
  message of the new file: `HeaderClaims.HeaderTwice`.
- A manual step may call `broadcast` while the automatic run is suspended in it
  (gui/controller.py:398-408), and nothing serializes the two. The second payload then overtakes
  the first exactly at the clients that are ready and that the first has still to reach:
  `OverlapClaims.OverlapReorders`, with a run in `OverlapClaims.OverlapReached`.
- A client that connects under the id of one still being disconnected (tcp_server_sender.py:249-275)
  is unregistered when that disconnection ends, and stays in the ready set without a queue:
  `OverlapClaims.ReusedIdLost`.

## Model

| member | source | states |
|---|---|---|
| Splitting.Find | src/tcp_sim/engine/framer.py:94-96 | the index of the first occurrence at or after the start, or -1 exactly if there is none |
| Splitting.CutRejoins | src/tcp_sim/engine/framer.py:92-108 | the pieces, each closed one with its separator, and the tail make up the stream again |
| Framing.Framer.Feed | src/tcp_sim/engine/framer.py:75-119 | the cutting loop, overflow record and retained buffer amount to one cut of old buffer plus data |
| Framing.Framer.TakeRecords | src/tcp_sim/engine/framer.py:92-108 | emits exactly the pieces closed by separators, except one that ends an overflow, and keeps the unterminated tail |
| Framing.Framer.Flush | src/tcp_sim/engine/framer.py:121-138 | the clamped tail once, nothing after an overflow; the framer is as new |
| Framing.Framer.Reset | src/tcp_sim/engine/framer.py:140-142 | the framer is as new |
| Chunking.FeedAllTracks | src/tcp_sim/engine/framer.py:75-119 | overflow exactly while the stream's tail is longer than the limit; otherwise the buffer is that tail; output is what is certain about the stream so far |
| Chunking.RecordsOfHeard | src/tcp_sim/engine/framer.py:75-138 | in every mode with a separator, all feeds and the flush give the records of the stream in which each CR lost to an overflow is overwritten |
| Chunking.LfChunkIndependence | src/tcp_sim/engine/framer.py:75-138 | LF: for every chunking the records are the stream's pieces, each clamped and flagged, and a non-empty tail once |
| CrLfChunking.BesideAll | src/tcp_sim/engine/framer.py:110-117 | the true and the heard stream differ by exactly the counted destroyed separators |
| CutPoints.LostIffSevered | src/tcp_sim/engine/framer.py:110-117 | the framer destroys a separator if and only if a cut severs one: CR before the cut and LF after it, the record under way over the limit, but not yet over it at the previous cut |
| CutPoints.CrLfChunkIndependence | src/tcp_sim/engine/framer.py:86-117 | CR LF: the same holds if and only if no cut severs a separator, or only one before a last LF that closes an oversized record |
| CrLfChunking.CrLfCounterexample | src/tcp_sim/engine/framer.py:112-117 | a concrete stream and chunking that loses a record |
| RawChunks.RawRecords | src/tcp_sim/engine/framer.py:83-84 | RAW_CHUNK: exactly one record for every chunk that is not empty, in order, which is the chunk verbatim up to the limit and is truncated exactly if the chunk is over it |
| RawChunks.RawLossless | src/tcp_sim/engine/framer.py:42-46 | if no chunk is over the limit, none is truncated and the payloads are the stream |
| FramerBudget.FeedBudget | src/tcp_sim/engine/framer.py:89-147 | no byte is invented, payloads stay within the limit, the buffer stays within it outside overflow and holds no separator |
| FramerBudget.ReadBurst | src/tcp_sim/engine/framer.py:75-138 | one read and a flush after it report at most a burst, whatever the framer's state |
| WorstBytes.WorstBurst | src/tcp_sim/engine/framer.py:75-138 | that bound is reached: a primed framer and a read of every length report a whole burst |
| Rotation.RotationKeepsLog | src/tcp_sim/engine/sink_writer.py:265-296 | a rotation loses exactly the oldest slot that another file moves into; everything else keeps its order, and files beyond the backup count stay as they are |
| Rotation.RotationShiftsList | src/tcp_sim/engine/sink_writer.py:271-296 | contiguous backups become the old live file followed by the old backups, cut to the backup count; no slot beyond it appears |
| Rotation.RetainedLog | src/tcp_sim/engine/sink_writer.py:265-310 | after any writes the retained files, oldest first, are the initial files and all blobs minus whole leading ones; the last blob is never lost, and nothing is while the last slot is free, which from contiguous slots means until all are taken |
| Rotation.RecordsBounded | src/tcp_sim/engine/sink_writer.py:298-310 | after writes to any slots every file is within the rotation limit, or is one single blob, or is a file that was there before |
| SinkWriting.SinkWriter.constructor | src/tcp_sim/engine/sink_writer.py:109-125 | an idle writer with an empty queue |
| SinkWriting.SinkWriter.Submit | src/tcp_sim/engine/sink_writer.py:181-202 | accept, ignore or drop, and the watermark event |
| SinkWriting.SinkWriter.UpdateBackpressure | src/tcp_sim/engine/sink_writer.py:361-373 | the flag flips at the watermarks only |
| SinkWriting.SinkWriter.Start | src/tcp_sim/engine/sink_writer.py:141-145 | opens the configured file and begins the loop, once |
| SinkWriting.SinkWriter.RequestStop | src/tcp_sim/engine/sink_writer.py:147-152 | the sentinel goes to the end of the queue |
| SinkWriting.SinkWriter.Join | src/tcp_sim/engine/sink_writer.py:153-163 | the writer is idle again once the loop has exited |
| SinkWriting.SinkWriter.Configure | src/tcp_sim/engine/sink_writer.py:165-179 | at once when idle, else pending with a wake-up item |
| SinkWriting.SinkWriter.ApplyPending | src/tcp_sim/engine/sink_writer.py:339-359 | the new configuration comes into force; the file is reopened if path or enabling changed |
| SinkWriting.SinkWriter.OpenFile | src/tcp_sim/engine/sink_writer.py:247-255 | the file in force and its real size |
| SinkWriting.SinkWriter.DrainOne | src/tcp_sim/engine/sink_writer.py:215-241 | one turn of the drain loop: reconfigure, then exit, skip, drop or write |
| SinkWriting.SinkWriter.WriteRecord | src/tcp_sim/engine/sink_writer.py:298-310 | rotates before a write that would exceed the limit, then appends |
| SinkWriting.SinkWriter.Rotate | src/tcp_sim/engine/sink_writer.py:265-296 | all slots after one rotation |
| SinkWriting.SinkWriter.ShiftBackups | src/tcp_sim/engine/sink_writer.py:271-292 | the descending renames move every slot up by one, whatever slots exist |
| SinkClaims.InvRun | src/tcp_sim/engine/sink_writer.py:181-243 | in every run: queued bytes are the queue's payload, high and low alternate, the open file is the configured one with its real size, every record is accounted for, and every path holds exactly its own records |
| SinkClaims.DrainRelieves | src/tcp_sim/engine/sink_writer.py:206-241 | as many turns as there are items empty the queue and end backpressure |
| SinkClaims.StopDrainsFirst | src/tcp_sim/engine/sink_writer.py:147-163 | all records accepted before the stop sentinel are dealt with before the loop exits, in order, under the configuration in force or a pending one |
| StopClaims.StopStops | src/tcp_sim/engine/sink_writer.py:147-163 | a stop request ends the loop: the queue is dealt with in order, the loop exits, the file is closed, and the sink can be joined and started again |
| StopClaims.TaskCycle | src/tcp_sim/engine/sink_writer.py:141-163 | only a start begins the loop, only the stop sign at the head of the queue ends it, only the join makes the sink idle |
| StopClaims.ConfigureThenStart | src/tcp_sim/engine/sink_writer.py:165-174 | a configuration given to an idle sink is in force when it starts next, with its file open; it stays in force exactly if no other one is pending |
| StopClaims.StopWhenIdle | src/tcp_sim/engine/sink_writer.py:147-149 | stopping an idle sink leaves nothing behind for its next start |
| SinkClaims.ReconfigureInFlight | src/tcp_sim/engine/sink_writer.py:165-179 | records in flight at a reconfiguration are all handled under the new one, in order |
| SinkClaims.InFlightSurvives | src/tcp_sim/engine/sink_writer.py:225-230 | they are all written if and only if there are none or the new configuration has a file |
| SinkClaims.DisablingLosesRecord | src/tcp_sim/engine/sink_writer.py:225-230 | a record that disabling the sink loses |
| SinkClaims.SwapSplits | src/tcp_sim/engine/sink_writer.py:339-359 | each configuration handles a contiguous part of the accepted records, in order |
| SinkClaims.ExactlyOnce | src/tcp_sim/engine/sink_writer.py:181-243 | while every configuration has a file, written records followed by queued ones are the accepted ones, each once and in order |
| SinkClaims.SinkRetains | src/tcp_sim/engine/sink_writer.py:265-310 | a path's retained files are its initial files and all blobs written to it, minus whole leading ones, across live changes of rotation size, format, watermarks and other paths; the last blob is never lost, and nothing is while the last slot is free |
| SinkClaims.SinkFilesBounded | src/tcp_sim/engine/sink_writer.py:247-310 | every file of a path, new or not, is within the largest rotation limit in force for it, or is one single record, or was there before the run |
| SinkClaims.StatisticsRight | src/tcp_sim/engine/sink_writer.py:307-310 | in every run the counters of records and bytes written are exactly those of the blobs written |
| WrittenClaims.SubmitsExactly | src/tcp_sim/engine/sink_writer.py:181-202 | in every run exactly the submissions that find the sink enabled and with room are accepted, in order, and every other one that finds it enabled is counted as dropped |
| WrittenClaims.EntriesExactly | src/tcp_sim/engine/sink_writer.py:215-241 | in every run the records that have left the queue, the configuration of each, and what was written of it are those of the turns that took a record: nothing without a file, else payload and separator, or the JSON line of that turn |
| WrittenClaims.FilesHoldEntries | src/tcp_sim/engine/sink_writer.py:298-315 | the retained files of a path end in what those turns were to write to it |
| WrittenClaims.JsonLinesRetained | src/tcp_sim/engine/sink_writer.py:316-337 | JSONL: the retained files end in the JSON lines of the turns that took a record, in order |
| WrittenClaims.NothingWritten | src/tcp_sim/engine/sink_writer.py:247-255 | disabled, without a path or with an empty one, no run writes anything |
| WrittenClaims.RotatesExactly | src/tcp_sim/engine/sink_writer.py:298-306 | in every run the live file is rotated exactly by the turns that write to a non-empty file without room for it |
| WrittenClaims.BackpressuredIffHighSince | src/tcp_sim/engine/sink_writer.py:361-373 | while nothing is reconfigured, backpressured if and only if the queue was at or over the high watermark at some point and over the low one ever since |
| Receiving.TcpServerReceiver.SetPaused | src/tcp_sim/transport/tcp_server_receiver.py:128-137 | resuming wakes every waiting peer |
| Receiving.TcpServerReceiver.AddPeer | src/tcp_sim/transport/tcp_server_receiver.py:145-157 | a peer with a framer of its own, also for an address that has connected before |
| Receiving.TcpServerReceiver.FeedPeer | src/tcp_sim/transport/tcp_server_receiver.py:171-173 | one chunk through the peer's framer, no other peer touched |
| Receiving.TcpServerReceiver.FlushPeer | src/tcp_sim/transport/tcp_server_receiver.py:174-177 | the trailing record, and the peer is gone |
| Receiving.ReceiverEngine.HandleSinkEvent | src/tcp_sim/engine/receiver.py:144-151 | high pauses, low resumes, other events do neither |
| Receiving.ReceiverEngine.HandleRecord | src/tcp_sim/engine/receiver.py:131-139 | submission and the pause it causes are one action |
| Receiving.ReceiverEngine.PeerConnected | src/tcp_sim/transport/tcp_server_receiver.py:145-163 | a new connection up to its first wait, also of an address that has connected before |
| Receiving.ReceiverEngine.PeerGate | src/tcp_sim/transport/tcp_server_receiver.py:160-165 | leave the loop, wait, or go on to the read |
| Receiving.ReceiverEngine.PeerRead | src/tcp_sim/transport/tcp_server_receiver.py:165-173 | feed, deliver all records, and return to the gate, as one action |
| Receiving.ReceiverEngine.LeavePeer | src/tcp_sim/transport/tcp_server_receiver.py:174-189 | flush, deliver, close |
| Receiving.ReceiverEngine.PeerCancelled | src/tcp_sim/transport/tcp_server_receiver.py:178-182 | gone without a flush |
| Receiving.ReceiverEngine.DrainTurn | src/tcp_sim/engine/sink_writer.py:215-241 | one turn of the drain loop and the callbacks it makes, as one action |
| ReceiverPause.InStepNext | src/tcp_sim/engine/receiver.py:131-151 | every step keeps the transport in step with the sink |
| ReceiverPause.PausedIffBackpressured | src/tcp_sim/transport/tcp_server_receiver.py:128-163 | in every reachable state, across any watermark changes: reads are paused exactly while the sink is backpressured, peers wait only then, and bytes are queued then |
| ReceiverPause.PauseEnds | src/tcp_sim/engine/receiver.py:144-151 | draining the queue resumes every peer |
| ReceiverCapacity.NoRecordDropped | src/tcp_sim/transport/tcp_server_receiver.py:160-177 | with room for one burst of every peer above the high watermark no interleaving of peers, drains, shutdown and live changes drops a record; and the most that is ever queued |
| CapacityExact.WorstRun | src/tcp_sim/engine/sink_writer.py:190-198 | with less room, a run from the started pipeline that drops a record, for all limits and every framing mode |
| CapacityExact.CapacityIsExact | src/tcp_sim/engine/receiver.py:106-151 | no run from the started pipeline drops a record if and only if that room is there |
| EndToEnd.PipelineRuns | src/tcp_sim/engine/receiver.py:131-151 | every run of the pipeline is a run of its sink with the same reconfigurations |
| EndToEnd.AcceptedIsReported | src/tcp_sim/engine/receiver.py:131-139 | while the sink stays enabled and has dropped nothing, it has accepted, per address and in order, exactly what the framers of its connections reported |
| EndToEnd.NothingLost | src/tcp_sim/transport/tcp_server_receiver.py:160-177 | with enough room, what is written and queued of an address is all that its framers reported, once and in order |
| Arrivals.TalksArrive | src/tcp_sim/transport/tcp_server_receiver.py:160-182 | with enough room, what is written and queued of an address is, connection by connection, what a framer of its own makes of the chunks read, with the flush exactly if the loop was left at an end of stream or at the gate of a stopped transport, and without it after a cancellation |
| Arrivals.StreamsArrive | src/tcp_sim/transport/tcp_server_receiver.py:160-182 | LF: all records of the byte stream of a connection whose loop was left so, and the certain ones of one that goes on or was cancelled |
| Arrivals.CrLfStreamsArrive | src/tcp_sim/transport/tcp_server_receiver.py:160-182 | CR LF: the same; for a connection that ended, if and only if no read severs a separator where it shows, for another one if no read severs any |
| Arrivals.RawChunksArrive | src/tcp_sim/transport/tcp_server_receiver.py:160-182 | RAW_CHUNK: one record for every chunk read from the address, in order |
| RoundTrip.LfReadsBack | src/tcp_sim/engine/framer.py:75-138 | payloads written as LF lines come back whole in any chunking |
| RoundTrip.CrLfReadsBack | src/tcp_sim/engine/framer.py:75-138 | CR LF: if and only if no cut severs a separator |
| RoundTrip.ShortReadsBack | src/tcp_sim/engine/framer.py:112-117 | CR LF: in any chunking if the payloads are below the limit |
| RoundTrip.RetainedReadsBack | src/tcp_sim/engine/sink_writer.py:298-315 | the retained files of a path, read oldest first, give back whole the payloads last written, including those of files from before the run; in CR LF if and only if no cut severs a separator |
| RoundTrip.PipelineReadsBack | src/tcp_sim/engine/sink_writer.py:298-315 | the same for everything a pipeline received: its own records always qualify |
| ConnectionSteps.QueueConserves | src/tcp_sim/transport/connection_manager.py:53-77 | first in, first out; the byte count is exact and within the cap, and the clamp at zero never acts |
| ConnectionSteps.BlockedIffPending | src/tcp_sim/transport/connection_manager.py:97-106 | blocked if and only if the queue was once high and no relief has followed, since the first such moment, for any thresholds |
| ConnectionSteps.OverdueIffEpisode | src/tcp_sim/transport/connection_manager.py:83-90 | overdue if and only if the current episode has lasted for the timeout |
| ConnectionSteps.OverdueInOrder | src/tcp_sim/transport/connection_manager.py:79-90 | clients registered earlier come earlier among the overdue ones |
| Connections.ConnectionManager.RegisterClient | src/tcp_sim/transport/connection_manager.py:39-42 | a new client with an empty queue |
| Connections.ConnectionManager.UnregisterClient | src/tcp_sim/transport/connection_manager.py:44-45 | that client is gone, no other changes |
| Connections.ConnectionManager.EnqueuePayload | src/tcp_sim/transport/connection_manager.py:53-67 | accepted, unknown client, or over the cap; nothing changes unless accepted |
| Connections.ConnectionManager.PopNextPayload | src/tcp_sim/transport/connection_manager.py:69-77 | the oldest payload, if any |
| Connections.ConnectionManager.UpdateBlockedState | src/tcp_sim/transport/connection_manager.py:97-106 | the hysteresis step |
| Connections.ConnectionManager.GetDisconnectCandidates | src/tcp_sim/transport/connection_manager.py:79-90 | in registration order, exactly the clients whose current episode has lasted for the timeout |
| BroadcastClaims.ReadyExactly | src/tcp_sim/transport/tcp_server_sender.py:96-99 | the event is set if and only if a client is ready, and ready clients are registered, also while disconnections nest |
| BroadcastClaims.StreamShape | src/tcp_sim/transport/tcp_server_sender.py:161-241 | what a client was sent and has queued is the header of the step that connected it, if there was one and it fits, and one contiguous part of the broadcast log from that step on, up to the last entry while it is ready |
| BroadcastClaims.SegmentEnds | src/tcp_sim/transport/tcp_server_sender.py:249-275 | once a client is out of reach nothing is queued for its id until it connects anew |
| BroadcastClaims.RejectionEnds | src/tcp_sim/transport/tcp_server_sender.py:165-172 | after a rejected payload nothing is queued for its client until it connects anew |
| BroadcastClaims.DisconnectEnds | src/tcp_sim/transport/tcp_server_sender.py:249-256 | exactly the client whose disconnection begins is not ready any more, and nothing is queued for it again unless a broadcast has still to reach it |
| BroadcastClaims.DisconnectCompletes | src/tcp_sim/transport/tcp_server_sender.py:249-275 | when a disconnection ends, its client is unregistered, whatever happened meanwhile, and what it had queued is lost |
| BroadcastClaims.ResumeDrops | src/tcp_sim/transport/tcp_server_sender.py:165-172 | a broadcast goes on only when its slow client is unregistered |
| BroadcastClaims.ClientsApart | src/tcp_sim/transport/tcp_server_sender.py:165-172 | what a broadcast does to a client's queue depends on that client alone |
| OverlapClaims.OverlapReorders | src/tcp_sim/transport/tcp_server_sender.py:165-172 | if a broadcast begins while another is suspended, a client gets the second payload if it is ready, and after it the first one if that has still to reach it, unless it is given up on the way |
| OverlapClaims.OverlapReached | src/tcp_sim/transport/tcp_server_sender.py:161-172 | a run of two clients that comes to such a state and ends with the payloads in the wrong order |
| OverlapClaims.ReusedIdLost | src/tcp_sim/transport/tcp_server_sender.py:249-275 | the client of an id that was still being disconnected is unregistered, and the ready set stays within the registered clients exactly if its header did not fit |
| Broadcasting.TcpServerSender.OnClientConnected | src/tcp_sim/transport/tcp_server_sender.py:174-200 | register, queue the header, become ready, as one action, whatever became of the id before |
| Broadcasting.TcpServerSender.EnqueueHeader | src/tcp_sim/transport/tcp_server_sender.py:187-195 | the header is the first payload of the client exactly if it fits |
| Broadcasting.TcpServerSender.UpdateHeader | src/tcp_sim/transport/tcp_server_sender.py:109-115 | the header for later clients |
| Broadcasting.TcpServerSender.Broadcast | src/tcp_sim/transport/tcp_server_sender.py:161-172 | the snapshot of the ready set up to the first client whose queue is full, and where the coroutine is suspended then; other broadcasts may be suspended |
| Broadcasting.TcpServerSender.Resume | src/tcp_sim/transport/tcp_server_sender.py:165-172 | the rest of the snapshot once that client is gone |
| Broadcasting.TcpServerSender.SpreadOver | src/tcp_sim/transport/tcp_server_sender.py:165-172 | the loop itself |
| Broadcasting.TcpServerSender.OfferTo | src/tcp_sim/transport/tcp_server_sender.py:166-169 | one client is offered the payload |
| Broadcasting.TcpServerSender.Write | src/tcp_sim/transport/tcp_server_sender.py:220-234 | the writer takes the oldest payload of its client |
| Broadcasting.TcpServerSender.BeginDisconnect | src/tcp_sim/transport/tcp_server_sender.py:249-256 | out of the ready set before the first wait |
| Broadcasting.TcpServerSender.EndDisconnect | src/tcp_sim/transport/tcp_server_sender.py:274-275 | unregistered after the waits |
| SchedulerClaims.StepSound | src/tcp_sim/engine/scheduler.py:129-159 | a line is the payload its number says; a header is sent in the very step that applies its swap |
| SchedulerClaims.SoundRun | src/tcp_sim/engine/scheduler.py:93-159 | the records are the window of the source and the cursor stays within it under every interleaving of calls |
| SchedulerClaims.PlaysInOrder | src/tcp_sim/engine/scheduler.py:142-159 | step k plays record (cursor + k) mod n when looping, and record cursor + k, then nothing, when not |
| ControlClaims.JumpPlays | src/tcp_sim/engine/scheduler.py:124-127 | a jump is accepted if and only if there is such a line; then the very next step plays it and later ones go on from there; a refused one changes nothing |
| ControlClaims.JumpNext | src/tcp_sim/engine/scheduler.py:124-159 | the message right after a jump is that line of the window |
| ControlClaims.ControlsAccepted | src/tcp_sim/engine/scheduler.py:110-117 | line controls are accepted if and only if they are positive and in order, as far as they are given |
| ControlClaims.ControlsPlay | src/tcp_sim/engine/scheduler.py:104-122 | accepted controls take effect at once: the next step plays the first line of their window; others change nothing |
| ControlClaims.RecordsPlay | src/tcp_sim/engine/scheduler.py:93-95 | new records are played from their first line under the controls in force |
| ControlClaims.PendingPlays | src/tcp_sim/engine/scheduler.py:129-140 | with a swap pending, the next step plays the header of its file, if it has one, and then its lines under the controls of that moment |
| ControlClaims.SwapPlays | src/tcp_sim/engine/scheduler.py:97-102 | a requested file is what is played from the next step on, and the last request wins |
| GenerationClaims.GenerationsInOrder | src/tcp_sim/engine/scheduler.py:129-209 | generations never decrease, a swap's header is played exactly once and first, every line is from its file's current window |
| Scheduling.SendScheduler.Step | src/tcp_sim/engine/scheduler.py:129-159 | at most one message and the moved cursor |
| Scheduling.SendScheduler.ApplyPendingSwapIfAny | src/tcp_sim/engine/scheduler.py:182-192 | the file of the next generation, from its first line |
| Scheduling.SendScheduler.RebuildActiveRecords | src/tcp_sim/engine/scheduler.py:194-209 | the window of the source under the controls |
| Scheduling.SendScheduler.RequestFileSwap | src/tcp_sim/engine/scheduler.py:97-102 | the swap waits for the next step; the last request wins |
| Scheduling.SendScheduler.SetLineControls | src/tcp_sim/engine/scheduler.py:104-122 | wrong controls are refused and change nothing |
| Scheduling.SendScheduler.JumpTo | src/tcp_sim/engine/scheduler.py:124-127 | a line out of range is refused and changes nothing |
| Scheduling.SendScheduler.SetRecords | src/tcp_sim/engine/scheduler.py:93-95 | the window of the new records |
| SenderPipeline.EveryMessageOnce | src/tcp_sim/engine/scheduler.py:161-178 | every non-empty message but one that still waits for a client has been broadcast once, in order |
| SenderPipeline.LogPartInOrder | src/tcp_sim/engine/scheduler.py:161-192 | from the turn that connected it on, a client's part of the log never goes back a generation, each entry is a header or a current line of its file, and a swap's header precedes its lines |
| HeaderClaims.ClientSeesGenerationsInOrder | src/tcp_sim/gui/controller.py:456-515 | a client's whole stream, connect-time header included, never goes back to an older file, except that a message held while a swap was pending follows the new header; that header is the one of the file that was due |
| HeaderClaims.GoesBackIffHeld | src/tcp_sim/gui/controller.py:497-515 | in every reachable state: a client that connects can get a stream that goes back if and only if a swap is pending, its header is sent, and a message is held that is not empty and within the cap |
| HeaderClaims.OldAfterNew | src/tcp_sim/gui/controller.py:456-467 | a run that leaves a client with the new header and then the old line |
| HeaderClaims.HeaderTwice | src/tcp_sim/engine/scheduler.py:129-140 | without a held message, a client that connects while a swap is pending has the new header twice at the front of its stream, unless the file is swapped again |
| RecipientClaims.CacheAgrees | src/tcp_sim/transport/udp_server_sender.py:117-139 | the cache is the newest part of the list of last sightings, within its size; what is older has expired if the cache is not full |
| RecipientClaims.ExpiredAreOldest | src/tcp_sim/transport/udp_server_sender.py:127-136 | the expired entries are the oldest contiguous end |
| RecipientClaims.CleanupExact | src/tcp_sim/transport/udp_server_sender.py:127-139 | right after a cleanup the cache is exactly those of the last seen senders up to its size that were seen within the time to live |
| RecipientClaims.RecencyIs | src/tcp_sim/transport/udp_server_sender.py:117-121 | that list holds exactly the addresses ever seen, each with the time it was seen last |
| RecipientClaims.CleanupKeeps | src/tcp_sim/transport/udp_server_sender.py:127-139 | after a cleanup a sender is known if and only if it is among the last seen ones and at most the time to live has passed since |
| UdpRecipients.UdpServerSender.RegisterSender | src/tcp_sim/transport/udp_server_sender.py:117-125 | the sender is newest, the oldest are evicted down to the size |
| UdpRecipients.UdpServerSender.Evict | src/tcp_sim/transport/udp_server_sender.py:123-125 | the newest entries that fit remain, in order |
| UdpRecipients.UdpServerSender.CleanupExpired | src/tcp_sim/transport/udp_server_sender.py:127-139 | exactly the expired recipients are taken out, the order is kept |
| RowSelection.VerdictsAgree | src/tcp_sim/engine/file_reader.py:195-199 | row by row: the preview has the data row with its place in the file, and its verdict is true exactly if that row is among the valid rows of scan and iterators; the header never is |
| RowSelection.VerdictsCount | src/tcp_sim/engine/file_reader.py:195-199 | there are as many verdicts as data rows, and as many true ones as a scan counts valid |
| RowSelection.RawTextsConserve | src/tcp_sim/engine/file_reader.py:87-99 | the raw texts of the rows make up the lines of the file |
| FileReading.FileReader.TakeRow | src/tcp_sim/engine/file_reader.py:279-285 | the first row is the header if there is one; a data row is valid if it is as wide as the first row |
| FileReading.FileReader.IsValidDataRow | src/tcp_sim/engine/file_reader.py:105-109 | the first row without a header sets the width |
| FileReading.FileReader.ScanFile | src/tcp_sim/engine/file_reader.py:171-218 | the final counts, valid and invalid adding up to the data rows |
| FileReading.FileReader.LoadPreview | src/tcp_sim/engine/file_reader.py:239-264 | the first data rows, as many as asked for, with the verdicts of a scan |
| FileReading.FileReader.IterValidRows | src/tcp_sim/engine/file_reader.py:266-298 | with its early stops, exactly the window of all valid rows under the controls; wrong controls are refused |
| FileReading.FileReader.IterValidRawRows | src/tcp_sim/engine/file_reader.py:300-337 | the same rows with their raw text |
| SelectionClaims.StreamingIsScheduled | src/tcp_sim/engine/scheduler.py:194-209 | the rows read under line controls are those the scheduler plays under them, for any encoding |
| SelectionClaims.SelectedLines | src/tcp_sim/engine/file_reader.py:287-298 | selected rows carry consecutive line numbers within the controls, and are the valid rows of those numbers |
| SelectionClaims.AllSelected | src/tcp_sim/engine/file_reader.py:266-298 | without controls as many rows are read as a scan counts valid |

## Left out

- Sockets, TLS, DNS and multicast: a read returns any non-empty chunk up to the read size, a write takes everything.
- Failures of the operating system in the sink (sink_writer.py:233-238, the 5 second limit of stop): the disk is a map from path to slots, and writes are total.
- Two path strings for one file, and a sink path that is another path's backup: each path string has slots of its own.
- The completion event of an overlapped `configure` (sink_writer.py:175-179), which is never set: overlapping calls are in all runs, but only their effect on the configuration is modelled.
- JSON, base64 and timestamps: a JSON line is any byte string supplied with the turn of the drain loop.
- Receiving.TcpServerReceiver.AddPeer: only for an address whose earlier connections are closed; two live connections cannot share one.
- Receiving.ReceiverEngine.PeerConnected: the same.
- BroadcastClaims.ReadyExactly: for runs in which no id connects that is connected or still being disconnected; what goes wrong otherwise is `ReusedIdLost`.
- BroadcastClaims.StreamShape: the same, and for broadcasts that do not overlap; what goes wrong otherwise is `OverlapReorders`.
- HeaderClaims.ClientSeesGenerationsInOrder: the automatic run alone steps the scheduler and broadcasts.
- Statistics of transport and engine, and the events that only inform the user.
- The UDP receiver's drop counter, which mirrors the result of `Submit`.
- Aliasing of `ClientState` objects (connection_manager.py:39-51): clients are values in the manager's map.
- The clock within one broadcast: all clients of one stretch between waits see the same time.
- `stop` of the TCP sender (tcp_server_sender.py:139-159), which disconnects everybody, and how many `client_disconnect` events a client gets.
- Receiving.TcpServerReceiver.FlushPeer: the removal from the table of peers is the status `Closed`, because the history of the peer stays.
- Iterators of the file reader that are abandoned half-way: they are taken to their end.
- The CSV grammar: rows and the lines they end on are given.
- Rate and pause of the scheduler's automatic run: they only decide when the next step happens.
- Stopping the automatic run (simulator.py:54-59): it cancels the task, which loses a held message and abandons the rest of a suspended broadcast. The model has no such cancellation.
- Timestamp rewriting, settings, reconnection backoff, user interface, logging and packaging.
