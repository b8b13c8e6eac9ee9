# A verified model of Hindsight's message pipeline

Hindsight moves messages through two append-only queues of numbered files. Input plugins inject into the
input queue; analysis threads read it and inject into the analysis queue; output plugins read both and
deliver. Once a second a sweep writes every reader's position to `hindsight.cp`; after a crash the process
resumes from there. The documentation promises that killing the process loses no message and redoes only
recent ones (`docs/architecture.md:46-55`). This project models the code that this promise rests on and proves
what it does promise.

`dafny verify dfyconfig.toml` checks everything.

## How the model is built

**Layers.** Objects that the program updates in place are classes here, and each of their methods is proved
against a function on values. What the program promises is proved about those functions, for every run.

| file | what it models |
|---|---|
| `Framing.dfy`, `Queue.dfy` | stream framing; queue files as lists of frames; `PosAfter`, the checkpoint behind the i-th message |
| `QueueLog.dfy`, `Writer.dfy` | the rolling queue with its stdio buffer; `hs_output` and the append of `inject_message` |
| `Reader.dfy`, `Input.dfy`, `Directory.dfy`, `Switch.dfy` | `hs_input` following a growing queue; directory scans; the switch between files while the writer goes on |
| `Delivery.dfy`, `Progress.dfy`, `OutputPlugin.dfy`, `Sessions.dfy`, `Merge.dfy` | an output plugin's checkpoint, batches, acknowledgement ring and retry, and what moves the checkpoint; the merge of the two queues; the output thread's loop |
| `Pipeline.dfy`, `Durability.dfy`, `InputLoss.dfy`, `AtLeastOnce.dfy` | all plugins, both queues, the sweep, crash and restart as one state machine, and the guarantees over its runs |
| `Sweeps.dfy`, `Completion.dfy` | what each sweep records and a crash therefore has done again; that threads and sweeps can always be brought to an end |
| `LossRuns.dfy`, `BatchRun.dfy` | runs in which a guarantee's exception does occur |
| `Refinement.dfy` | the output thread's step as a step of the state machine |
| `Analysis.dfy` | the analysis thread's loop and the shutdown cascade of the CLI build |
| `Backpressure.dfy` | throttling of `inject_message` and the sweep's search for the slowest reader |
| `CheckpointText.dfy`, `CheckpointFile.dfy`, `Decimal.dfy` | positions as text in the checkpoint table; the checkpoint file and what loading it restores |
| `Placement.dfy`, `Stats.dfy` | choice of an analysis thread; percentages of the utilization report |

**The state machine.** `Pipeline.Next` has one step per critical section: the two of `inject_message`, one
per message read or injected by an analysis thread, the events of an output plugin, stdio spilling part of a
buffer, and one per sample, flush and write of `hs_write_checkpoints`. Every step may happen between any two
others, and `CrashAndRestart` at any moment, with any `output_size`; a plugin thread may end and its plugin start
again at any moment too, an output plugin's in two steps, since it stores its two positions one after the other.
`Reader.Step1`, `Delivery.Next` and `Backpressure.Next` are the machines of one reader, one output plugin
and one throttle; `Switch.Next` takes the writer apart into single system calls.

**The classes and the machines.** `Merge.OutputThread.Thread` is the output thread from its first turn to its
exit, with the writers going on between turns. It keeps a ghost delivery session, and proves that this session is
the last state of a run of `Delivery.Next` made of the messages delivered, the sandbox's answers to the attempts at
them and the timer events; so what is proved of runs holds for its fields. `Refinement.HeldIsEnabled` says that the
position it records is the one the pipeline's step asks for.

**Safety and progress.** Most results come in two halves: nothing is recorded too early (`NothingLost`,
`UnsettledLiesAfterCheckpoint`, the durability lemmas), and what has been done is recorded (`CoveredByEvents`,
`CatchesUp`, the `Sweeps` lemmas, the loop's bound on its turns).

## What holds only under an assumption

- The daemon build is modelled, except for `Analysis.AnalysisThread.Drain` and `Analysis.CliShutdown`.
- `lsb_find_heka_message` and `lsb_expand_input_buffer` are library code. Their contracts: take one complete
  frame at `scanpos` or leave the buffer alone, remembering the length of a partly read message; make room
  without changing `buf[scanpos..readpos]`. `Framing.ScanFrame` says which frames are complete.
- stdio hands whole frames to a file. A torn frame at the end of a file after a crash is left to the library's
  resynchronisation.
- Except in `Switch.dfy`, "the read returned nothing, then open the next file" is one step of the reader.
  `Switch.SwitchIsExact` says exactly when nothing is lost if the writer goes on in between.
- A sandbox that calls the checkpoint callback with nil reports everything handed over so far as delivered,
  the message in progress included. A callback with a sequence id and no ring has the same effect in the code
  and the same meaning here. Acknowledgements are cumulative and name a message in flight; `RingSlotExact`
  says that exactly those still find their position in the ring.
- Nobody deletes queue files, except for `Input.NextFile`; the file a checkpoint names exists.
- File ids and sequence ids do not wrap at 2^64, and, except in `Writer.Injector` and `Framing.TlenExact`, frames are
  at most INT_MAX bytes.

## Where the code does less than one would expect

- `TlenExact`, `Writer.AddedExactly`: the writer's offset is right exactly for frames of at most INT_MAX bytes,
  because their length goes through an `int`. Longer frames are still appended whole.
- `SwitchIsExact`: a message that the writer appends between a reader's last read of a file and its open of the
  next one is skipped, unless the next file existed at the read already or the reader was at `output_size` bytes
  or more and past what the writing process had found in the file when it opened it. The size test alone does
  not suffice after a restart with a lower `output_size` (`LoweredSizeSkips`); the look-ahead below
  `output_size`, meant for a raised one, never does (`LookAheadSkips`).
- `PositionRoundTrip`: a position in the checkpoint table survives exactly if both of its numbers are below
  10^14, because `lua_pushfstring` renders them with `%.14g`.
- `LineRoundTrip`: checkpoint strings escape neither single quotes nor anything in the key, so a line is read back
  exactly if the value has no single quote or NUL and the key has no quote, backslash, line break or NUL.
- `RoundIsClose`, `RoundIsMonotone`: a percentage is right, and larger for a larger numerator, exactly as far as
  1000 n / d fits an `int`; the first numerator beyond gives a negative percentage.
- `InputDurability`, `InputLoss.LostExactly`: the documentation says that a crash loses or skips no message. It
  skips one exactly if the persisted checkpoint of an input plugin is ahead of the files: because it was sampled
  while the injection of its last message was in progress (at most one message per plugin and crash,
  `LostPerCrash`), or because the plugin's thread ended between the flush and the write of a sweep with a message
  that its checkpoint vouches for still in the stdio buffer (`ExitIsExact`). `LossRuns.dfy` has a run for each.
- `CatchesUp`, `AckForgotten`: the checkpoint follows the read position when no batch is open and every message with an
  answer has been acknowledged, except that an acknowledgement of the message in progress is forgotten if an older
  message is acknowledged before the answer: the test meant for wrapped sequence numbers takes the older one instead
  (src/hs_output_plugins.c:154-157). The checkpoint then stays behind until another acknowledgement comes.
- `RedoneSinceSample`: the documentation says that a crash redoes at most one second of data, which is what came
  since the last sweep. That holds exactly if, when that sweep sampled the output plugin, its checkpoint was its
  read position: no batch was open, no acknowledgement missing, no message being retried or just being
  delivered. `BatchRun.dfy` has a run in which it fails. What is redone in any case is stated by `RedoneExactly`. For
  an analysis thread it always holds (`ThreadRedoesExactly`).

## Model

| member | source | states |
|---|---|---|
| AtLeastOnce.NothingLost | src/hs_checkpoint_writer.c:290-320 | In every state reachable by any interleaving of injections, reads, deliveries, acknowledgements, sweeps, crashes, restarts and reloads: a message that has reached the files of a queue has been settled by the output plugin (sent, acknowledged, failed or skipped) or lies strictly after that plugin's persisted checkpoint |
| AtLeastOnce.RestartResumes | src/hs_output_plugins.c:807-832 | After a crash in any state that keeps the invariant of every run an output plugin stands at its persisted pair of positions, and the first message it can take from either queue is the first one after that pair |
| AtLeastOnce.RedoneExactly | src/hs_checkpoint_writer.c:426-437 | The messages taken both before a crash and after it are exactly those between the persisted checkpoint (or the start of the ended life) and the position reached on both sides |
| AtLeastOnce.ReloadRedoesExactly | src/hs_output_plugins.c:683-698 | When a plugin is reloaded the new instance begins at the old one's checkpoint, the two together take a gapless stretch of each queue, and both take exactly what lies between the checkpoint and the position reached |
| AtLeastOnce.LivesLeaveNoGap | src/hs_output_plugins.c:407-447 | Whatever crashes and reloads came before, every message up to the position reached is settled by some life of the plugin or taken by the current one |
| AtLeastOnce.PersistedNeverMovesBack | src/hs_checkpoint_writer.c:369-437 | No step, crashes included, moves the persisted (id, offset) of an output plugin backwards in either queue |
| AtLeastOnce.RedoneSinceSample | src/hs_checkpoint_writer.c:298-320 | Everything a crash has redone was taken after the sample that the last sweep persisted, exactly if at that sample `cp` was `cur` |
| BatchRun.RedoneBeforeSample | src/hs_output_plugins.c:347-380 | A run with a batch open at the sample, after which a crash redoes a message taken before it |
| AtLeastOnce.TakenByPosition | src/hs_output_plugins.c:622-638 | In every reachable state the messages that the current life of a plugin has taken from a queue are exactly those after its first position there and not after its read position |
| AtLeastOnce.TakenExactly | src/hs_output_plugins.c:622-638 | They are a gapless stretch, and none is taken twice |
| AtLeastOnce.OutputStepInv | src/hs_checkpoint_writer.c:290-320 | Every step of the pipeline keeps: table and file hold positions of messages already in the files, everything before them is settled, and file <= table <= current checkpoint |
| Durability.InputDurability | src/hs_input_plugins.c:115-187 | In every reachable state each message that a persisted input plugin checkpoint vouches for is in the input queue's files, except at most the one whose injection was in progress at the sample, and what an earlier crash skipped; a checkpoint stored by an ending thread after the flush is covered by InputLoss.ExitIsExact |
| InputLoss.LostExactly | src/hs_checkpoint_writer.c:114-161 | Over any run a plugin has lost a message exactly if some crash found its persisted checkpoint ahead of the files: by the message in progress at the sample, or by any if the checkpoint was stored late |
| InputLoss.SkipsExactly | src/hs_checkpoint_writer.c:114-161 | The same for one crash in any reachable state |
| InputLoss.LostPerCrash | src/hs_checkpoint_writer.c:114-161 | Without a late checkpoint a plugin loses at most one message per crash |
| InputLoss.ExitIsExact | src/hs_input_plugins.c:388-391 | In any reachable state: what an ending plugin thread stores is in the files when it is persisted, whatever happens up to then, exactly if the running sweep has not flushed yet or no message that the checkpoint vouches for is in the stdio buffer |
| LossRuns.SampledInProgress | src/hs_input_plugins.c:115-136 | A run of six steps from a first start in which a sample between the two critical sections and a crash lose the message |
| Durability.AnalysisDurability | src/hs_checkpoint_writer.c:185-203 | In every reachable state, if a persisted analysis thread checkpoint lies at or after an input message, every message injected while that one was processed is in the analysis queue's files |
| Durability.ThreadStepInv | src/hs_analysis_plugins.c:484-493 | The step by step form: position advanced after processing, sampled before the flush, persisted after it |
| Durability.InputStepInv | src/hs_checkpoint_writer.c:114-161 | The same for input plugins: what the sample vouches for is in the queue, and in the files once the sweep has flushed |
| Durability.CoversCount | src/hs_checkpoint_writer.c:185-194 | A message lies at or before a thread's checkpoint exactly if it is among those the checkpoint counts |
| Durability.QueueSteps | src/hs_input_plugins.c:136-150 | No step makes a queue's files lose a message or moves the position of a message in them; only a crash removes messages from the queue, and only unflushed ones |
| Sweeps.SweepRecords | src/hs_checkpoint_writer.c:369-437 | Every write of the checkpoint file puts into it, for every input plugin, analysis thread and output plugin, what the last step that stored a position of it had to store; that step is in the very sweep that ends with the write, or earlier only for an output plugin whose thread the sweep found ending |
| Sweeps.ThreadRedoesExactly | src/hs_checkpoint_writer.c:182-194 | For any crash: of the messages that an analysis thread has finished in the ended life it finishes again exactly those that it had finished since its sample in the last completed sweep |
| Sweeps.FinishedExactly | src/hs_analysis_plugins.c:484-493 | The messages that a thread finishes between two restarts are exactly those between its two positions |
| Sweeps.EmittedIsSafe | src/hs_checkpoint_writer.c:185-203 | Whatever a thread injects while it processes a message is in the analysis queue's files in every state of that life in which the persisted checkpoint covers the message |
| Sweeps.InjectedStays | src/hs_input_plugins.c:143-150 | A message injected is the next one of its queue, with its payload, and stays there up to a crash, and beyond crashes once it is in the files |
| Sweeps.InputRedoesExactly | src/hs_input_plugins.c:115-136 | After a crash an input plugin appends again exactly those of its messages that the checkpoint stored in the last completed sweep did not vouch for |
| Sweeps.LastGiven | src/hs_input_plugins.c:115-124 | A plugin's checkpoint is the last one it has handed over, with a message or as a synchronization point |
| Sweeps.AppendedExactly | src/hs_input_plugins.c:136-150 | Between two restarts a plugin appends a gapless stretch of its messages |
| Sweeps.OnceASweep | src/hs_checkpoint_writer.c:369-437 | A sweep visits no plugin and no thread twice |
| Completion.SweepCompletes | src/hs_checkpoint_writer.c:369-437 | From every reachable state without a sweep one can be run to its end; undisturbed it leaves everybody's position in the file and both queues in their files |
| Completion.ThreadGoesOn | src/hs_analysis_plugins.c:472-493 | In every reachable state an idle analysis thread with a message ahead can process exactly that one and inject anything: its injections are the next ones of the analysis queue, in order |
| Completion.PluginGoesOn | src/hs_input_plugins.c:115-150 | An idle input plugin can inject any message; it is the next one of the queue, and the checkpoint vouches for it exactly if it came with it |
| Completion.OutputGoesOn | src/hs_output_plugins.c:607-633 | In every reachable state a running output plugin between two messages can take the next message of a queue as soon as that is in the files |
| Completion.AnyTime | src/hs_input_plugins.c:388-391 | In every reachable state the process may crash with any restart size, stdio may spill, an idle plugin or thread may do what it does without a message, and a plugin's thread may end |
| Refinement.QueuesAreLogs | src/hs_input_plugins.c:143-150 | After any run of the pipeline each queue is what its appends, flushes, crashes and restarts make of an empty one, so that the results about queue files hold for it |
| LossRuns.EndedAfterFlush | src/hs_input_plugins.c:388-391 | A run in which a plugin injects after the flush and ends before the write, and a crash loses its message |
| Delivery.UnsettledLiesAfterCheckpoint | src/hs_output_plugins.c:322-404 | In every reachable state of batching, acknowledgement in any order, retry and skipping: a message without a final answer lies strictly after the checkpoint in its queue; the checkpoint is a pair the reader passed through and is at most the read position |
| Delivery.CheckpointsNeverMoveBack | src/hs_output_plugins.c:149-178 | Neither `cp` nor `cur` ever moves backwards in either queue |
| Delivery.CoveredExactly | src/hs_output_plugins.c:376-380 | A message is at or before the checkpoint exactly if it is one of the messages the checkpoint covers |
| Delivery.UncoveredUntilSettled | src/hs_output_plugins.c:322-404 | Over any run, an unsettled message lies strictly after the checkpoint in every state up to the first event that settles it: a nil callback, an acknowledgement of it or a later one, its final answer, SENT for its batch, or a mismatch |
| Progress.CoveredByEvents | src/hs_output_plugins.c:149-178 | In every reachable state a message is at or before the checkpoint exactly if some event has put it there: a report while a batch is open, an acknowledgement of it or a later one, or a final answer or mismatch after which no batch is open and no acknowledgement missing, all in terms of the answers and callbacks so far |
| Progress.CatchesUp | src/hs_output_plugins.c:374-380 | Right after a message is closed `cp` is `cur` exactly if no batch is open and no acknowledgement is missing, or a callback during its own attempts has covered it |
| Progress.OneByOne | src/hs_output_plugins.c:374-380 | Without a ring and without batches `cp` is `cur` after every message |
| Progress.AckForgotten | src/hs_output_plugins.c:153-157 | A run in which all messages with an answer have been acknowledged and the checkpoint stays behind |
| Progress.MissingExactly | src/hs_output_plugins.c:374-380 | The two sequence numbers agree exactly if the last message with an answer has been acknowledged and that acknowledgement was not overtaken before the answer |
| Progress.BatchingExactly | src/hs_output_plugins.c:347-351 | `batching` says exactly whether a BATCH has had neither a SENT nor a report after it |
| Progress.BatchedByEvents | src/hs_output_plugins.c:347-351 | The messages that the next SENT settles are exactly those answered with BATCH since the last SENT or report |
| Progress.SettledByEvents | src/hs_output_plugins.c:322-404 | In every reachable state a message is settled exactly if some event after it was taken has settled it |
| Delivery.RetryNotCovered | src/hs_output_plugins.c:645-664 | A message answered with RETRY is not covered by the checkpoint until a later attempt stops returning RETRY, also when `stop` ends the loop |
| Delivery.PromisedNotCovered | src/hs_output_plugins.c:347-380 | A message answered with BATCH or ASYNC is not covered until its batch is sent, it is acknowledged or a nil callback reports it |
| Delivery.RingSlotExact | src/hs_output_plugins.c:158-171 | Slot `s % async_len` holds the position recorded for sequence s exactly as long as s is in flight |
| Delivery.InvKept | src/hs_output_plugins.c:322-380 | Every event keeps: positions rise, the ring holds what is in flight, everything covered is settled, everything unsettled is waited for |
| Delivery.LaterOfTwo | src/hs_output_plugins.c:160-171 | Comparing the two queues' positions separately in the callback yields the pair of the later message, never a mixture |
| Delivery.NothingPending | src/hs_output_plugins.c:376-380 | When no batch is open and no acknowledgement is missing every message taken is settled, so that the checkpoint may jump to the read position |
| OutputPlugin.SessionIsFold | src/hs_output_plugins.c:322-404 | The plugin's fields after any run of a delivery session are the fold of its events |
| Sessions.AttemptPlays | src/hs_output_plugins.c:322-404 | One call of output_message is a legal stretch of a session if callbacks are nil or in flight; it leaves the message waiting exactly if the answer was RETRY and ends the session exactly on a fatal answer |
| Sessions.RetryLoopPlays | src/hs_output_plugins.c:643-664 | So are all attempts at a message, from the first to the last |
| Sessions.TriesSettle | src/hs_output_plugins.c:643-664 | The attempts at a message settle it exactly if it does not match, one of them is answered SENT, FAIL or SKIP, or a callback reaches it; if it matches it gets the next sequence number |
| Sessions.PlayIsRun | src/hs_output_plugins.c:322-404 | A legal stretch from a plugin's start is a run of a session |
| Sessions.PlayKeeps | src/hs_output_plugins.c:322-404 | A legal stretch keeps the session's invariant, and the plugin's fields are the fold of its events |
| OutputPlugin.Plugin.UpdateCheckpointCallback | src/hs_output_plugins.c:149-178 | The callback's field updates are the acknowledgement step on the whole state |
| OutputPlugin.Plugin.OutputMessage | src/hs_output_plugins.c:322-404 | One call leaves the state that its events (hand over, callbacks, answer, timer) lead to and returns the outcome, fatal ones included |
| OutputPlugin.Plugin.OutputWithRetry | src/hs_output_plugins.c:644-664 | The retry loop: every attempt but the last answered RETRY, none is made once `stop` is set, the state is the fold of all attempts, and RETRY is left standing only because of `stop` |
| OutputPlugin.Plugin.RunCalls | src/hs_output_plugins.c:149-178 | Any number of callbacks during one call into the sandbox is the fold of the single ones |
| OutputPlugin.Plugin.HandOver | src/hs_output_plugins.c:335-372 | Record the position in the ring, run the sandbox, note the answer |
| OutputPlugin.Plugin.TakeMessage | src/hs_output_plugins.c:622-633 | The read position of the message's queue steps over it, the other queue's stays |
| OutputPlugin.Plugin.UpdateCheckpoint | src/hs_output_plugins.c:121-130 | `cp` becomes `cur` and nothing else changes |
| Merge.OutputThread.Choose | src/hs_output_plugins.c:609-638 | Of two held messages the older goes first, ties to the input queue; one is delivered, the other stays held and uncovered; deliveries remain, queue by queue, the queue's messages in order without gap or repetition, and `cur` is the pair of positions behind them |
| Merge.OutputThread.FillBoth | src/hs_output_plugins.c:449-605 | Reading ahead changes nothing of what has been delivered and leaves a queue that is not read alone; from an open file of a queue that is read it yields a message, or bytes, or everything flushed in the file has been delivered; with the looks at the directories due there is then a message, less left to do, or nothing left |
| Merge.OutputThread.Thread | src/hs_output_plugins.c:407-708 | The thread from its first turn to its exit, with both writers appending, flushing and rolling between turns: what has been delivered is, queue by queue and from the queues it reads only, the queue's messages in order; the plugin's fields are the last state of a run of a delivery session made of these messages, the sandbox's answers to the attempts and the timer events, with one sequence number for every message that matches; it ends by `stop` or because the plugin has failed; if nothing is added, enough turns deliver everything in the files; the two positions stored stand for settled messages only, and are removed again only from a plugin that failed and is configured for that |
| Merge.OutputThread.Serve | src/hs_output_plugins.c:607-676 | The message chosen is the one delivered, with the attempts of the turn up to the first answer that is not RETRY; the timer is looked after only if there is no message and nothing has been read |
| Merge.OutputThread.Deliver | src/hs_output_plugins.c:639-668 | One message: the session goes on with it and its attempts, it has a sequence number exactly if it matches, and it is settled exactly if an attempt settles it |
| Merge.OutputThread.Loop | src/hs_output_plugins.c:434-677 | The loop alone, from any state between two turns, with why it ended and the bound on the turns that deliver everything |
| Merge.OutputThread.WritersGoOn | src/hs_input_plugins.c:143-150 | Whatever the two writers do between turns, the thread's state and its search for a next file fit the queues as they are then |
| Merge.OutputThread.ShutdownTimer | src/hs_output_plugins.c:312-319 | The callbacks of the last timer event are a legal stretch of the session |
| Merge.OutputThread.Turn | src/hs_output_plugins.c:434-677 | One turn: the merge's and the session's invariants hold again; what it did is what its input says; a turn with the looks due leaves less to do, unless everything flushed has been delivered |
| Merge.OutputThread.Starts | src/hs_output_plugins.c:807-832 | A plugin started at two positions of flushed messages begins in such a state |
| Refinement.HeldIsEnabled | src/hs_output_plugins.c:622-633 | The message held by the thread is the queue's next one, and taking it at the recorded position is an enabled step of the pipeline |
| Refinement.RestartThroughFile | src/hs_checkpoint_reader.c:233-275 | The position at which the pipeline restarts a plugin is the one that the program reads back from the checkpoint file, exactly if its two numbers are below 10^14 |
| Merge.Fill | src/hs_output_plugins.c:449-525 | The head of the loop for one queue: a held message is kept, a new one is the queue's next one; reading, switching files or waiting for the first file loses none; if neither a message nor bytes come, everything flushed in the file has been delivered, and if the look at the directory was due and led nowhere, everything flushed in the queue |
| Merge.HeldIsNext | src/hs_output_plugins.c:622-633 | The held message is the next undelivered one, and `cp.offset - (readpos - scanpos)` is the position behind it even while later bytes are buffered |
| Merge.WriterKeepsSide | src/hs_output_plugins.c:449-453 | The writer going on between two turns of the loop disturbs neither the held message nor the counts |
| Reader.ReaderExactness | src/hs_analysis_plugins.c:472-533 | For every chunking of reads and every concurrent append, flush and roll: the messages found are exactly the injected ones from the starting checkpoint on, the recorded offset never underflows and is the frame boundary behind the last one, and a reader opened there goes on with exactly the next message |
| Switch.GuardedCompleteness | src/hs_analysis_plugins.c:495-533 | With the daemon's own guard on the switch, in a queue of any history, the loop comes to rest only when it has found everything that was flushed |
| Reader.ReaderCompleteness | src/hs_analysis_plugins.c:495-511 | The same for a reader that switches without the guard |
| Switch.SwitchIsExact | src/hs_analysis_plugins.c:508-511 | For every run of writers that are restarted with any `output_size`, with the writer going on between read and open: leaving a file skips nothing exactly if the next file existed at the read, or the reader was at `output_size` or more and past what the writing process had found in the file |
| Switch.LoweredSizeSkips | src/hs_output.c:57-87 | In every queue whose last file has reached a lowered `output_size` a reader at its end passes the size test and skips the next message |
| Switch.AddIsInject | src/hs_input_plugins.c:144-150 | The append, the close and the open of the next file, taken one by one, are the roll in one step |
| Switch.LookAheadSkips | src/hs_analysis_plugins.c:505-511 | A run in which the look-ahead below `output_size` leaves a message behind |
| Switch.FlagIsLastLook | src/hs_analysis_plugins.c:508-523 | The flag says exactly whether the last look for a next file found one; it is set as long as there has been none |
| Reader.CanFinish | src/hs_analysis_plugins.c:472-511 | From every state of a run, if the writer pauses, the reader can get on until it has found everything that was flushed |
| Reader.LogOfRun | src/hs_input_plugins.c:143-150 | The queue of a reader's run is what the writer's steps make of the queue it began with |
| Reader.RecordedIsPosition | src/hs_analysis_plugins.c:487-493 | The recorded position is the checkpoint behind exactly the messages found |
| Reader.ResumeFollows | src/hs_input.c:40-51 | A reader opened at the position behind any flushed message follows the queue from exactly there |
| Reader.ScanKeeps | src/hs_analysis_plugins.c:472-474 | A scan takes the queue's next message or, if that has not been read completely, none, and never sees garbage |
| Reader.ReadKeeps | src/hs_input.c:96-102 | Any chunk of unread bytes keeps buffer and position in step with the queue |
| Reader.EndOfFile | src/hs_analysis_plugins.c:495-509 | At end of file with no message left the buffer is empty and every flushed message of the file has been found |
| Reader.SwitchKeeps | src/hs_input.c:57-63 | Opening the next file then continues with its first message |
| Reader.WriterKeeps | src/hs_input_plugins.c:143-150 | Appends, flushes and rolls do not disturb a reader anywhere in the queue |
| Input.HsInput.OpenFile | src/hs_input.c:23-78 | True without effect if the file is open already; otherwise the handle changes exactly if the file exists, and the offset starts over only for another id |
| Input.HsInput.ReadFile | src/hs_input.c:81-103 | Whatever was buffered, there is room for at least one byte; the buffered window grows by exactly the next bytes of the file, the result is 0 exactly at end of file; a read that is not cut short brings the rest of a partly read message, or a whole buffer |
| Input.HsInput.FindMessage | src/hs_analysis_plugins.c:473-474 | The library contract: take the complete frame at `scanpos` or leave the window alone |
| Input.HsInput.ExpandInputBuffer | src/hs_input.c:92-95 | The library contract: room for the bytes needed, the window unchanged |
| Input.NextFile | src/hs_analysis_plugins.c:506-531 | One look for the next file: where it leads, what the flag says afterwards, and how looks in vain are counted |
| Input.LookPassesNone | src/hs_analysis_plugins.c:506-531 | Under any pruning of files a look moves the reader only upwards, to the beginning of a file that exists, and past none; it reaches a next file at once and one behind a gap when the wait is over; without pruning it never skips |
| Input.GapCrossed | src/hs_analysis_plugins.c:512-530 | At the end of a full file before a gap a reader that keeps looking stays where it is for 60 looks and with the next one is at the beginning of the first file behind the gap |
| Input.NoGap | src/hs_checkpoint_reader.c:73-100 | In an unpruned directory the next file exists if any later one does |
| Directory.FindNextId | src/hs_checkpoint_reader.c:73-100 | The smallest id above the start, in any directory order; 0 exactly if there is none below ULLONG_MAX |
| Directory.FindFirstId | src/hs_checkpoint_reader.c:40-61 | The smallest id, in any directory order; 0 if there is none but ULLONG_MAX |
| Directory.FindLastId | src/hs_output.c:38-54 | The largest id, in any directory order; 0 for an empty directory |
| Directory.ExtractId | src/hs_checkpoint_reader.c:27-37 | A name is accepted exactly if it is a digit run followed by `.log`, and yields that number |
| Directory.FileNameRoundTrip | src/hs_output.c:109-110 | The name the writer gives a file is read back as its id exactly if the id fits 64 bits |
| QueueLog.ClosedFilesNeverChange | src/hs_output.c:102-123 | Once file k+1 exists, file k is complete and no injection, flush, crash or restart changes a byte of it |
| QueueLog.FilesHoldInjectionOrder | src/hs_input_plugins.c:143-150 | After any steps the files in id order hold the injected messages in injection order, each as one whole frame in one file, up to what had been flushed |
| QueueLog.FilesReachOutputSize | src/hs_input_plugins.c:148-149 | Every file but the last stays at the least `output_size` of all restarts or more |
| QueueLog.FilesEndAtOutputSize | src/hs_input_plugins.c:148-150 | In a queue that never crashed a file ends with the very message that takes it to `output_size`, and the last file is below it |
| Queue.PosOrder | src/hs_output_plugins.c:160-171 | Comparing two checkpoints by id, then offset, is comparing how many messages they cover; different messages have different checkpoints |
| Queue.AppendKeepsPos | src/hs_input_plugins.c:147-150 | Growing the queue moves no message's checkpoint |
| Queue.TruncateKeepsPos | src/hs_output.c:102-123 | Nor does a crash, for the messages that survive it |
| Writer.HsOutput.constructor | src/hs_output.c:57-87 | On any directory that holds a queue the writer resumes at the end of its last file, on an empty one it starts file 0 |
| Writer.HsOutput.OpenOutputFile | src/hs_output.c:102-123 | The open file gets what stdio still held, the file of the current id exists afterwards and the offset is its length |
| Writer.HsOutput.Flush | src/hs_checkpoint_writer.c:154-158 | The chosen messages move from the stdio buffer to the file, and after a full flush the buffer is empty |
| Writer.Injector.Append | src/hs_input_plugins.c:137-150 | Whatever the frame's length, its bytes are appended to the queue and the roll follows the offset; the writer's position is right afterwards exactly if it rolled or the length fits an `int`, and then this is the injection of the queue's model |
| Writer.AddedExactly | src/hs_input_plugins.c:138-147 | Adding the `int` length to the offset adds the frame's length exactly up to INT_MAX |
| Writer.WrappedOffset | src/hs_input_plugins.c:138-149 | A negative `int` length larger than the offset takes the offset over any `output_size`: the file is closed and the position is right again |
| Writer.Injector.InjectMessage | src/hs_input_plugins.c:136-187 | The same, and whether the caller is slowed down: exactly if throttling was on or this roll is reason enough, and this second's look does not end it |
| Writer.CrashLeaves | src/hs_output.c:57-87 | What a dead process leaves in the directory is exactly the recovered queue |
| Writer.DiskAfterExtend | src/hs_output.c:102-108 | The directory changes only at a roll, which completes the last file and creates an empty next one |
| Framing.Header300 | src/hs_input_plugins.c:137-143 | The header of a payload of 300 bytes, byte by byte, with the varint example of the Protocol Buffers Encoding guide, section 'Base 128 Varints' |
| Framing.FrameRoundTrip | src/hs_input_plugins.c:137-145 | Decoding a written frame gives back the payload for every 64 bit length and leaves the bytes behind it alone |
| Framing.PartialFrame | src/hs_input.c:84-91 | No strict prefix of a frame is taken for a message or for garbage |
| Framing.NeedCompletesFrame | src/hs_input.c:84-88 | With a partial frame buffered, the bytes held and `need` add up to the length by which the writer advanced its offset |
| Framing.SizeTVarint | src/hs_input_plugins.c:111 | Every 64 bit length fits the 14 byte header buffer |
| Framing.VarintLength | src/hs_input_plugins.c:137 | A base 128 varint takes at most k bytes exactly for numbers below 128^k |
| Framing.VarintRoundTrip | src/hs_input_plugins.c:137 | Decoding a base 128 varint gives back the number |
| Framing.FillHeader | src/hs_input_plugins.c:137-143 | The bytes written into the static buffer are the frame header, without overrunning the buffer |
| Framing.TlenExact | src/hs_input_plugins.c:138 | The `int` by which the offset advances is the frame's length exactly up to INT_MAX |
| Analysis.AnalysisThread.Drain | src/hs_analysis_plugins.c:459-505 | CLI build: once injection has ended and `stop` is set the loop terminates, and on exit every message of the input queue has been handled in order and the checkpoint is behind the last one |
| Analysis.AnalysisThread.Turn | src/hs_analysis_plugins.c:467-541 | Each turn moves to a later file, reads, takes a message, or stops at the end of the queue |
| Analysis.AnalysisThread.AtEnd | src/hs_analysis_plugins.c:495-505 | After a read that returned nothing a next file exists exactly if there is more to handle, and then this file has reached `output_size` |
| Analysis.AnalysisThread.Handle | src/hs_analysis_plugins.c:484-493 | The checkpoint advances behind the message after it has been handled |
| Analysis.CliShutdown | src/hindsight.c:250-261 | The cascade: inputs stopped, a sweep flushes, the thread is stopped and waited for; everything injected has then been handled |
| Backpressure.SlowestReaderBound | src/hs_input_plugins.c:147-156 | After a completed sweep the published minimum never exceeds a reader's file; from the first roll after it on, unthrottled means that every reader is at most `backpressure` files behind the writer |
| Backpressure.ThrottleChanges | src/hs_input_plugins.c:151-180 | Over any run throttling is on exactly if it was on and no injection has ended it since, or a roll with too slow a reader or too full a disk has begun it and no injection has ended it since then; an injection ends it exactly if in a new second it finds the queue caught up and the disk condition met |
| Backpressure.OncePerSecond | src/hs_input_plugins.c:166-167 | Two looks whether to stop throttling are in different seconds, whatever the clock does |
| Backpressure.MinimumIsSampled | src/hs_checkpoint_writer.c:416-418 | The published minimum is the file of a reader at its sample in the sweep |
| Backpressure.CaughtUpReleases | src/hs_input_plugins.c:166-180 | Throttling does end: once a sweep has found all readers in the writer's file, the next injection that does not roll, in a new second and with room on the disk, ends it |
| Backpressure.CheckpointInfo.Sweep | src/hs_checkpoint_writer.c:369-418 | The minima a sweep publishes are the least file ids over the readers of each queue, taken from read positions rather than checkpoints; ULLONG_MAX without readers |
| Backpressure.CheckpointInfo.AnalysisStats | src/hs_checkpoint_writer.c:183-193 | The least file id of the analysis threads |
| Backpressure.CheckpointInfo.OutputStats | src/hs_checkpoint_writer.c:294-315 | The least file ids of the output plugins that read each queue |
| CheckpointText.PositionRoundTrip | src/hs_checkpoint_reader.c:278-293 | A position written to the table is read back as itself exactly if both numbers are below 10^14; a larger number comes back as one digit |
| CheckpointText.KeysDistinct | src/hs_checkpoint_reader.c:284-288 | No two readers share a table entry, in one queue or in two, and none has the writer's |
| CheckpointText.CheckpointReader.UpdateInputCheckpoint | src/hs_checkpoint_reader.c:278-293 | Only the reader's entry changes, and looking it up yields the position exactly if that fits |
| CheckpointText.CheckpointReader.LookupInputCheckpoint | src/hs_checkpoint_reader.c:233-275 | The stored position; without one the first file at start-up, else the writer's position, else no change |
| CheckpointText.CheckpointReader.SyncPositions | src/hs_output_plugins.c:807-832 | Where a plugin starts on the queues it reads; its entries for the others are removed and no other entry changes |
| CheckpointText.CheckpointReader.Reload | src/hs_output_plugins.c:683-698 | A plugin that stops and comes back stands where it stopped, on each queue it reads, exactly if that position fits |
| CheckpointText.SavedKeepsOthers | src/hs_output_plugins.c:683-698 | A plugin's exit changes nobody else's position, and no writer's |
| CheckpointText.RemovedIsGone | src/hs_output_plugins.c:133-146 | Removing a plugin's checkpoint removes its positions in the queues it reads, and nobody else's |
| CheckpointFile.FileReadsBack | src/hs_checkpoint_reader.c:296-327 | For any table in any order: the file is read line by line as what it was written from exactly if no key has a quote, backslash, line break or NUL and no value a single quote before its first NUL |
| CheckpointFile.FileRoundTrip | src/hs_checkpoint_reader.c:296-327 | Then writing the table and loading the file restores every string entry up to its first NUL and adds none; it restores the table itself exactly if no value has a NUL |
| CheckpointFile.LineRoundTrip | src/hs_checkpoint_reader.c:306-316 | A line is read back as the assignment it was written for exactly if the key has no quote, backslash, line break or NUL and the value no single quote or NUL |
| CheckpointFile.KeyRoundTrip | src/hs_checkpoint_reader.c:307 | A key written unescaped is read back as itself exactly under that condition, also where it ends in a backslash and takes the closing quote with it |
| CheckpointFile.ValueRoundTrip | src/hs_util.c:57-81 | An escaped value is read back as itself exactly if it has no single quote or NUL |
| CheckpointFile.PositionSurvivesRestart | src/hs_checkpoint_reader.c:103-127 | A reader's position goes through table, file and load and is looked up again, exactly if both numbers are below 10^14 |
| CheckpointFile.InputCheckpointSurvivesRestart | src/hs_input_plugins.c:75-79 | An input plugin's string, stored with its terminating NUL, comes back as the string |
| CheckpointFile.OneLine | src/hs_util.c:57-81 | What is written of a value has no line break, and every double quote in it stands behind a backslash |
| CheckpointFile.OutputLuaString | src/hs_util.c:57-81 | The loop writes the escaped text of the string up to its first NUL |
| CheckpointFile.OutputCheckpoints | src/hs_checkpoint_reader.c:296-327 | The dump is one line per string entry, in the enumeration's order |
| Placement.LoadStartup | src/hs_analysis_plugins.c:795-844 | For any configurations in any order, pinned or not, loading or not: pinned plugins go where they are pinned, the counts are those of the pinned configurations and of the plugins placed freely, and a thread that was given a plugin of its own choice ends at most one above every other |
| Placement.ChooseThread | src/hs_analysis_plugins.c:814-826 | The first of the threads with the fewest plugins; stopping at an empty one changes nothing |
| Placement.LeastUsedThread | src/hs_analysis_plugins.c:862-884 | The first of the threads with the least (utilization, plugins); none exactly if there is a limit and no thread is below it |
| Stats.RoundIsClose | src/hs_checkpoint_writer.c:97-111 | The result is above the exact percentage minus 0.6 and at most 0.5 above it, exactly if 1000 n / d fits an `int` |
| Stats.RoundIsNearest | src/hs_checkpoint_writer.c:97-111 | As long as it fits an `int`, the result is the percentage nearest to the whole tenths, and of two equally near the even one |
| Stats.HalvesGoToEven | src/hs_checkpoint_writer.c:103-109 | Which number the rounding of tenths is |
| Stats.RoundIsMonotone | src/hs_checkpoint_writer.c:97-111 | Among the numerators up to n a larger one never gives a smaller percentage, exactly if 1000 n / d fits an `int` |
| Stats.Drops | src/hs_checkpoint_writer.c:97-111 | The first numerator whose quotient does not fit gives a negative percentage |
| Stats.RoundIsPercentage | src/hs_checkpoint_writer.c:97-111 | Between 0 and 100 for a part of a total |
| Stats.SharesAddUp | src/hs_checkpoint_writer.c:227-233 | The matcher, process and timer shares of a nonzero total add up to 99, 100 or 101 |
| Stats.Round | src/hs_checkpoint_writer.c:97-111 | The in-place rounding is rounding tenths of a percent half to even, with C's division |

## Left out

- Sandboxes, the message matcher, protobuf decoding and resynchronisation after corrupt bytes: library code.
- Torn frames at the end of a file after a crash: see the assumptions.
- Messages that output plugins inject into the input queue: output checkpoints are sampled after that queue was flushed, so the argument for analysis threads does not apply to them.
- The "checkpoint was reset" branches (src/hs_analysis_plugins.c:541-554, src/hs_output_plugins.c:505-518): they jump to the end of the queue on purpose.
- RETRY after `stop` in the CLI build: its outer loop goes on without delivering the message again; delivery is stated for the daemon build.
- The reading loop of output plugins in the CLI build, and the part of the shutdown cascade after the analysis threads.
- Numeric checkpoints (`%.17g`), running statistics, and the text of the two TSV reports.
- Memory management of checkpoint strings, their length limit, and allocation failures.
- Configuration parsing, plugin creation and destruction, dynamic loading, `.rtc`, `.err` and `.off` files, and the slot tables of the plugin lists.
- Locks, semaphores, signals, timed joins and deadlock freedom: each critical section is one step.
- Write errors and failing opens for any reason but a missing file: the program logs them or exits.
- The once a second gating by the clock: `turn` in Merge.Fill is any boolean.
- Wrap-around of 64 bit file ids and sequence ids.
- AtLeastOnce.RestartResumes: positions are restored exactly, which Refinement.RestartThroughFile shows for numbers below 10^14 only.
- CheckpointFile.PositionSurvivesRestart: requires that every entry is read back; another entry that is not can keep the whole file from loading, and then the program exits (src/hs_checkpoint_reader.c:121-127).
- CheckpointFile.InputCheckpointSurvivesRestart: the same.
- Backpressure.SlowestReaderBound: for the input queue and a fixed set of readers; the analysis queue may have no reader, and its minimum then stays at ULLONG_MAX.
- CheckpointFile.FileRoundTrip: loading knows the assignments that the writer means to write and calls every other Lua text malformed; keys are plugin names, never `_G` itself.
- CheckpointText.PositionRoundTrip: of `%.14g` from 10^14 on only the form is modelled, one digit followed by a fraction or an exponent.
- Writer.Injector.Append: says that the position stays right for files below 2^63 bytes, the lengths that `ftell` can return.
- Merge.OutputThread.Thread: the sandbox's callbacks are inputs that keep to the rule above, and a message keeps matching or not while it is retried.
- Placement.LoadStartup: requires fewer than INT_MAX plugins, whose counts are C ints.
- Stats.RoundIsMonotone: requires 1000 n to fit a `long long`; beyond that the C product overflows.
