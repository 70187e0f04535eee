# RBClaw verification

RBClaw runs coding agents for chat groups. This project models its concurrent core in Dafny and proves what
that core keeps, over every history, interleaving, chunking or crash the model allows.

* **Agent scheduler** (`GroupQueue`): groups compete for a bounded pool of agent slots, with retries, backoff,
  a recovery mode and shutdown. `QueueState` and `QueueSteps` give each synchronous block of the program as a
  function on values; `QueueInvariants`, `QueueOneRun`, `QueueSingle`, `QueueCapacity`, `QueueMessagesOnly`
  and `QueueDrain` prove the guarantees over all histories; `QueueOrder` says who waits and in which order,
  `QueueRetries` and `QueueRecords` what a group's record holds, from the events alone; `QueueTraces`, `QueueBackoff`,
  `QueueDropped` and `QueueRecovery` hold histories on which the code falls short of what one might expect, with the
  exact conditions; `GroupQueue` is the class with its records on the heap, each public method proved to do the step.
  `DeliveryMemory` is the bounded memory of direct deliveries in a group's record, `DeliveryRecord` that record itself.
* **Agent output** (`FrameParser`, `AgentStream`): the incremental parser of marker-framed output and the bounded
  captures of both streams.
* **Agent process** (`Supervisor`, `RunResolution`, `RunTimeline`, `AgentProcess`, `AgentHost`): timeouts, clean-up after
  terminal output, and the resolution of a run, as a machine over timers and process events, as what the events alone
  tell of a run, as a class of event handlers, and as that class together with the parser that feeds it.
* **Progress message** (`CoalescingTask`, `TurnHandover`, `TurnSafety`, `TurnEdits`, `TurnDeliveries`, `TurnProgress`,
  `TurnReturns`, `MessageTurn`): the ticker-driven edit task, the hand-over of the progress message to the final answer,
  what a turn delivers, shows and leaves behind, and the edits that can come after it.
* **Account pool** (`AccountPool`, `AccountSearch`, `AccountObstacles`, `AccountUpdates`, `LeaseSafety`, `RotationBound`,
  `CodexPool`): circular search, rotation, what stands against an account and what every operation does to it, and leases
  guarded by lock files that other processes share.
* **IPC files** (`FileClaims`, `ClaimSafety`, `FileFates`, `IpcWatcher`): claiming by rename, handling, quarantine, and
  where every file ends, with a crash possible between any two file operations.

Each part has the same shape: a value for the state, a function for each step, an invariant kept by every step,
guarantees over all runs, and a class in the program's own form whose methods are proved to do exactly the steps.

Where the code does not do what one might expect, the model follows the code:

* a group listed for a task slot can be started a second time (`TwoRunsOfOneGroup`, `TwoMessageRunsOfOneGroup`;
  `SingleRunStep` and `SingleRunPerGroup` give the exact condition);
* a message run that is started on top of another one is taken to have delivered what that one did
  (`NotesInherited`; `StartAgrees` and `AgreesExactlyWithoutOverlap` say when);
* a recovery pool above the normal one, which the configuration admits, leaves listed groups idle with slots free, and
  then starts them twice, even without tasks (`MessageWorkConservation`, `OneRunWithoutTasks`);
* a finishing message run starts a task without looking at the task limit (`TaskLimitStep`);
* a freed task slot may stay unused while a task waits (`TaskSlotsStep` says at which blocks);
* messages are started inside a group's backoff in three ways: at the end of a failed message run, at the end of a task
  run, and by the drain of the list (`BackoffStep`);
* without a handler queued message checks can be dropped (`MessagesDroppedStep` says at which blocks);
* an edit requested while the run before it throws is not made until the next request (`NoRequestLost`);
* the writer does not escape the end marker, so a payload containing it is read back cut short
  (`WrittenPayloadRecovered`);
* the time an open run can take is bounded exactly when it has delivered a terminal output: a process that survives
  SIGKILL without one is not released (`BoundedExactlyWhenScheduled`, `NeverReleasedWithoutTerminalOutput`);
* a turn closed by a human message, and no other, drops its progress message without waiting for the edit in flight
  (`DropsUnderEditStep`); and a turn that ends without publishing or finalizing anything can leave an edit in flight or
  pending, which is then still made (`EditsAfterFinish`, `EditsIssuedAfterFinish`);
* with handlers that do not overlap a publication never finds a progress text to flush first (`NothingHeldBack`);
* a lock file that cannot be parsed does not keep rotation away from an account that nobody can lease
  (`ChosenIsClaimableUnlessCorrupt`, `CorruptLockIsNeverLeased`).

Assumptions: JavaScript runs each synchronous block without interruption, and continuations of promises run before
timers; callbacks do not re-enter the queue before their first await and do not throw before it; run ids, message ids
and lease ids are fresh; a due timer fires before time passes it; `handleOutput` and `finish` do not overlap, although
frames that arrive between the exit event and the close event can still be delivered; taking over a stale lock is one
step; writers use a file name once, and moving a file to the errors succeeds. The configuration guarantees a normal pool
of at least one slot and nothing about the size of the recovery pool.

## Model

| member | source | states |
|---|---|---|
| QueueInvariants.StepInv | src/group-queue.ts:117-233 | Every synchronous block of the scheduler keeps the invariant behind the guarantees below: counters equal runs in flight, tasks are conserved, a busy phase names a run in flight, an active backoff has an armed timer, and pending work will be looked at again. |
| QueueInvariants.NoLostWakeUp | src/group-queue.ts:117-233 | In every history, before shutdown: a group with pending messages is busy, listed, or has an armed retry timer; a group with pending tasks is busy or listed; a backoff time always has its timer armed. |
| QueueInvariants.TaskConservation | src/group-queue.ts:185-233 | In every history each accepted task is, counted with multiplicity, exactly one of pending, in flight or finished; ids pending in a group are distinct; and what left the group's queue is a prefix of what entered it, so queued tasks start in enqueue order. |
| QueueInvariants.SlotAccounting | src/group-queue.ts:451-565 | In every history `activeCount` is the number of runs in flight, `activeTaskCount` that of task runs, and the waiting list has no duplicates. |
| QueueSingle.SingleRunStep | src/group-queue.ts:117-233 | With a handler (or with the block that installs it), one run per group with matching phase and run id, and silent phase checks, survive a block if and only if the block does not drain the list into a group that is busy, i.e. none of the groups that the drain starts has a phase other than idle when it begins. |
| QueueSingle.SingleRunPerGroup | src/group-queue.ts:605-685 | Over whole histories in which no task is requested before the handler is installed: one run per group holds throughout if and only if no block drains the list into a busy group. |
| QueueSingle.OneDrainsIdle | src/group-queue.ts:637-685 | While all listed groups are idle, with a handler or without, no block drains the list into a busy group. |
| QueueOneRun.OneRunStep | src/group-queue.ts:117-233 | The stronger invariant that adds that every listed group is idle survives a block if and only if the block does not start, directly, a group that is listed. A guard of the call, sufficient for one run per group and not necessary. |
| QueueOneRun.OneRunPerGroup | src/group-queue.ts:605-685 | Over whole histories: that stronger invariant, and with it one run per group, holds throughout if no block ever starts a listed group; the stronger invariant, only if. |
| QueueOneRun.OneMeansAtMostOneRun | src/group-queue-state.ts:163-216 | What that means in counts: at most one run of a group in flight, never a message run beside a task run, and the record names it with the matching phase. |
| QueueRecovery.OneRunWithoutTasks | src/group-queue.ts:87-183 | All histories without tasks keep one run per group, with matching phases and silent checks, if and only if the recovery pool is not above the normal one; and exactly then they also keep listed groups idle with pending messages, and all slots taken while one is listed. |
| QueueRecovery.SecondRun | src/group-queue.ts:87-183 | For every recovery pool above the normal one, a history without tasks with two message runs of one group. |
| QueueCapacity.StepBound | src/group-queue.ts:605-635 | No block raises the number of runs above the larger of what it was and the limit in force, although a finishing group restarts without looking at the limit. |
| QueueCapacity.NeverAboveLimit | src/group-queue.ts:107-111 | In every history the number of runs stays within the larger pool size. |
| QueueCapacity.RecoveryBound | src/group-queue.ts:87-111 | As long as recovery lasts the number of runs stays within the recovery pool or the number on entry. |
| QueueCapacity.TaskLimitStep | src/group-queue.ts:611-619 | With a handler, a block takes the task count above its limit if and only if it is the end of a message run whose group has a task queued while all task slots are taken. |
| QueueCapacity.DrainWaitingExit | src/group-queue.ts:637-685 | With a handler or without, draining stops only when the slots are full or no listed group could start. |
| QueueRecovery.MessageWorkConservation | src/group-queue.ts:87-183 | In all histories, tasks and recoveries included, an idle listed group with pending messages and no retry timer means that all slots are taken (with a handler and before shutdown), if and only if the recovery pool is not above the normal one. |
| QueueCapacity.DeadlockFreedom | src/group-queue.ts:498-563 | No history leaves work stuck with nothing in flight if and only if both pools have at least one slot, whichever is larger. |
| QueueCapacity.StuckWithoutRecoverySlots | src/group-queue.ts:107-111 | With a recovery pool of no slots the first message during recovery is stuck. |
| QueueDrain.DrainClosedForm | src/group-queue.ts:637-685 | With a handler, the find-and-splice loop computes the closed form: the listed groups with messages first, in list order, as many as slots are free; then the groups with only tasks, as many as slots and task slots are left. |
| QueueDrain.DrainCounts | src/group-queue.ts:637-685 | With a handler, what stays listed keeps its order and has no duplicates, and the counters grow by exactly the numbers of the closed form. |
| QueueOrder.StepLists | src/group-queue.ts:117-233 | For every block, with a handler or without: one that drains only takes groups off the list and leaves the others in their order; any other puts its own group at the end, if and only if it is not listed and has to wait: idle, and for messages without a handler, or without a slot and outside its backoff, for a new task without a slot or a task slot. So the list keeps the order in which groups were put on it. |
| QueueOrder.StepAccepts | src/group-queue.ts:185-233 | For every block: a task is accepted if and only if it is requested before shutdown while the record of its group neither runs it nor has it pending, and finished if and only if a run of it ends. |
| QueueTraces.TwoRunsOfOneGroup | src/group-queue.ts:642-682 | A history in which a group listed for a task slot starts a message run and is then given its task on top: two runs at once, and the phase checks report. |
| QueueTraces.TwoMessageRunsOfOneGroup | src/group-queue.ts:455-682 | A history in which the drain starts a second message run of a group on top of the first, and overwrites its run id. |
| QueueTraces.TaskLimitExceeded | src/group-queue.ts:611-619 | A history that exceeds the task limit. |
| QueueTraces.TaskSlotLeftUnused | src/group-queue.ts:623-631 | A history in which a free task slot is not offered to a waiting task. |
| QueueTraces.TaskEndUsesSlots | src/group-queue.ts:605-635 | The end of a task run leaves no usable task slot idle if and only if it is not the case that, with a handler, its group goes on with messages while a slot is free and another idle group waits with a task. |
| QueueTraces.TaskSlotsStep | src/group-queue.ts:605-685 | For every block before shutdown, with a handler or without: from a state that leaves no usable task slot idle the block reaches one that does if and only if it is that end of a task run, or the start of a recovery that opens more slots than were open while a task waits. |
| QueueTraces.MessagesLostWithoutHandler | src/group-queue.ts:477-516 | A history in which, before a handler is installed, draining empties a queued message check into a run that processes nothing. |
| QueueDropped.MessagesDroppedStep | src/group-queue.ts:451-685 | For every block: it clears the pending messages of some group without leaving a message run of it if and only if no handler is installed (and the block does not install it) and it ends a run whose group has messages and no task, or drains the list, with a slot free, while somebody listed has messages. |
| QueueTraces.MessagesNeedHandler | src/group-queue.ts:477-516 | A message run that is started stays in flight to process messages if and only if a handler is installed; without one, nothing that drains leaves a message run. |
| QueueBackoff.BackoffStep | src/group-queue.ts:484-685 | For every block: it starts messages of a group inside its backoff if and only if there is a handler (or the block installs it), and it is the end of a message run that did not succeed, with retries left, messages and no tasks pending; or the end of a task run during the backoff with messages and no tasks pending; or it drains the list and the drain starts messages of a group in backoff. |
| QueueBackoff.TaskEndStartsInBackoff | src/group-queue.ts:605-631 | A history of the second way: the end of a task run starts messages of its group long before the backoff is over. |
| QueueBackoff.DrainStartsInBackoff | src/group-queue.ts:642-670 | A history of the third way: a group listed for a task is given its messages by the drain during its backoff. |
| QueueTraces.BackoffAfterRunEnd | src/group-queue.ts:567-635 | The first of these ways in any state, for the group of the run alone: the end of a message run restarts the same group inside its own backoff if and only if the run did not succeed with retries left, messages are pending and no task is queued. |
| QueueTraces.ChecksRespectBackoff | src/group-queue.ts:148-162 | A message check during backoff starts nothing, keeps the backoff, and is remembered. |
| QueueRetries.StepRetries | src/group-queue.ts:484-635 | Every block does to the retry fields of every group what its event says and nothing else: starting, draining and listing leave them alone. |
| QueueRetries.RetriesFromHistory | src/group-queue.ts:484-603 | Over all histories the retry count of a group is the number of its message runs that have failed since its last success or give-up, counted from the events alone; a retry is due and armed as they say; and a success leaves neither a count nor a backoff. |
| QueueRetries.FailureIsRetried | src/group-queue.ts:567-603 | The k-th failure of a group in a row, k from 1 to 5, arms its timer for 5000, 10000, 20000, 40000 or 80000 ms later in turn; the sixth gives up and starts the count anew. |
| QueueRecords.StepRecorded | src/group-queue.ts:235-416 | For every block and every group: whether a process is registered and whether messages have an IPC directory to go to is what the event says, a run that ends on the spot without a handler forgetting both; and the group begins to close if and only if a close request, or shutdown with a process registered, finds its message run on and the directory known. |
| QueueRecords.ProcessFromHistory | src/group-queue.ts:235-255 | Over all histories the record of a group knows the process and the directory that its history tells of. |
| QueueRecords.ChecksAcceptExactly | src/group-queue-state.ts:163-216 | The phase checks accept a record if and only if its ids fit its phase: a run id exactly in the two message phases, a task id exactly in the task phase, and no process when idle. |
| QueueRecords.ChangesAcceptedExactly | src/group-queue-state.ts:106-148 | A change of phase is accepted if and only if it changes nothing, goes back to idle, starts a run from idle, or closes a message run. |
| GroupQueueClass.GroupRecord.TransitionRunPhase | src/group-queue-state.ts:106-148 | Changes the phase, and says whether the change is outside the transition table. |
| GroupQueueClass.GroupRecord.ResetRunState | src/group-queue-state.ts:150-161 | Clears what belongs to the run and returns to idle. |
| GroupQueueClass.GroupRecord.AssertRunPhaseInvariants | src/group-queue-state.ts:163-216 | Reports exactly the phase and id combinations that the checks call violations. |
| GroupQueueClass.GroupQueue.GetGroup | src/group-queue.ts:70-77 | Gives an unknown group a fresh record and changes nothing else. |
| GroupQueueClass.GroupQueue.EnqueueMessageCheck | src/group-queue.ts:117-183 | On the heap: does exactly the message-check step, for every phase, handler, backoff and slot state. |
| GroupQueueClass.GroupQueue.EnqueueTask | src/group-queue.ts:185-233 | On the heap: does exactly the task-request step, duplicates included. |
| GroupQueueClass.GroupQueue.RegisterProcess | src/group-queue.ts:235-255 | On the heap: does exactly the process-registration step. |
| GroupQueueClass.GroupQueue.CloseStdin | src/group-queue.ts:365-416 | On the heap: does exactly the closing step. |
| GroupQueueClass.GroupQueue.SetProcessMessagesFn | src/group-queue.ts:79-85 | On the heap: installs the handler and drains as the step does. |
| GroupQueueClass.GroupQueue.EnterRecoveryMode | src/group-queue.ts:87-96 | On the heap: starts recovery without touching any run. |
| GroupQueueClass.GroupQueue.RecoveryTimerFires | src/group-queue.ts:96-104 | On the heap: ends recovery and drains as the step does. |
| GroupQueueClass.GroupQueue.RunForGroup | src/group-queue.ts:451-517 | On the heap: starts a message run, which ends at once when there is no handler. |
| GroupQueueClass.GroupQueue.RunTask | src/group-queue.ts:519-540 | On the heap: starts a task run as the step does. |
| GroupQueueClass.GroupQueue.MessageRunEnds | src/group-queue.ts:484-516 | On the heap: retry bookkeeping, reset, counters and draining after a message run, as the step does. |
| GroupQueueClass.GroupQueue.TaskRunEnds | src/group-queue.ts:545-564 | On the heap: reset, counters and draining after a task run, as the step does. |
| GroupQueueClass.GroupQueue.DrainGroup | src/group-queue.ts:605-635 | On the heap: own tasks, then own messages, then the waiting list, as the step does. |
| GroupQueueClass.GroupQueue.DrainWaiting | src/group-queue.ts:637-685 | On the heap: the loop with its two searches and splices does what the recursive specification does. |
| GroupQueueClass.GroupQueue.RetryTimerFires | src/group-queue.ts:594-602 | On the heap: disarms the retry and checks for messages unless shutting down. |
| GroupQueueClass.GroupQueue.Shutdown | src/group-queue-shutdown.ts:28-47 | On the heap: the loop over all groups disarms every retry and closes every running message process with an IPC directory. |
| DeliveryMemory.KeepsMostRecentRuns | src/group-queue-state.ts:82-104 | After any sequence of records the memory holds exactly the 16 most recently recorded runs, in order of recency. |
| DeliveryMemory.KeepsLatestTexts | src/group-queue-state.ts:82-104 | Every text held is the last one the full log has for that run and role. |
| DeliveryMemory.ForgetsNothingBelowTheLimit | src/group-queue-state.ts:82-104 | While at most 16 runs were ever recorded, a role is known for a run if and only if the log has it. |
| DeliveryMemory.NeverAboveTheLimit | src/group-queue-state.ts:82-104 | As the run ids the program notes are not empty, the memory never holds more than 16 runs. |
| DeliveryMemory.EvictionReachesLimit | src/group-queue-state.ts:93-103 | Of any memory, the eviction loop gets down to 16 entries if and only if no entry to be dropped has the empty run id, at which it would stop; the callers never note one. |
| DeliveryRecord.AgreesExactlyWithoutOverlap | src/group-queue-run-input.ts:80-160 | Over all histories, with run ids that are new to the memory: what is noted agrees with the memory throughout if and only if no run is started while something is noted for an earlier one. |
| DeliveryRecord.StepAgrees | src/group-queue-run-input.ts:80-160 | The same step by step: the agreement ends exactly at the start of a run over notes. |
| DeliveryRecord.StartAgrees | src/group-queue.ts:455-461 | For a run id that is new to the memory: after the start the shortcut answers as the memory for every role if and only if nothing was noted before it; every role noted before is answered as delivered by the new run. |
| DeliveryRecord.AnswersAreRemembered | src/group-queue-run-input.ts:113-160 | While they agree, both answers are those of the memory, for every run and role, and the noted text is the latest in the log. |
| DeliveryRecord.NotesFromHistory | src/group-queue-run-input.ts:80-111 | Over all histories, from the events alone: what is noted for a role is the last text delivered to it, of those that came with a role and a text while a message run with a name was on, since the notes were last cleared; what the memory logs is every such delivery, in order. |
| DeliveryRecord.NotesInherited | src/group-queue.ts:455-461 | A history in which a run started on top of another one is answered as having delivered what only the other one did. |
| DeliveryRecord.RunRecord.RunStarts | src/group-queue.ts:455-461 | A run may start at any time; the notes stay, and agree with the memory of a new run exactly when there are none. |
| DeliveryRecord.RunRecord.RunEnds | src/group-queue-state.ts:150-161 | The end of a run forgets what was noted, whichever run it was noted for, and keeps the memory. |
| DeliveryRecord.RunRecord.RecordRecent | src/group-queue-state.ts:82-104 | The delete-and-append with its eviction loop is the specified update of the memory. |
| DeliveryRecord.RunRecord.NoteDirectTerminalDelivery | src/group-queue-run-input.ts:80-111 | Notes a text if and only if a message run is running and role and text are not empty, in the current run and in the memory alike, and keeps them in agreement. |
| DeliveryRecord.RunRecord.HasDirectTerminalDeliveryForRun | src/group-queue-run-input.ts:113-122 | True exactly for the current run and a role that is noted; while notes and memory agree, the memory has that text for that run. |
| DeliveryRecord.RunRecord.HasRecordedDirectTerminalDeliveryForRun | src/group-queue-run-input.ts:143-160 | True exactly if the shortcut or the memory says so; while notes and memory agree, the answer is that of the memory alone. |
| FrameParser.FirstOccurrence | src/agent-runner-process.ts:276-278 | The search for a marker finds the first occurrence from a position on, and fails exactly when there is none. |
| FrameParser.TrimCuts | src/agent-runner-process.ts:281-283 | Trimming cuts off both ends exactly the white space there is, and stops at the first other character. |
| FrameParser.FirstFramePrefix | src/agent-runner-process.ts:276-285 | A complete frame in a buffer is cut out the same way whatever text follows. |
| FrameParser.ParseConcat | src/agent-runner-process.ts:276-285 | Parsing a concatenation equals parsing the first part and going on with its leftover and the second part. |
| FrameParser.ChunkingIndependence | src/agent-runner-process.ts:730-748 | Any two ways of cutting a stream into chunks give the same frames and the same leftover buffer, namely those of the whole stream. |
| FrameParser.RoundTrip | src/agent-runner-process.ts:276-285 | Any list of framed bodies with noise between them, without accidental markers, is recovered trimmed, exactly and in order, and the unframed tail stays in the buffer. |
| FrameParser.RoundTripChunked | src/agent-runner-process.ts:730-748 | The same under every chunking. |
| FrameParser.LinesAreCleanNoise | runners/shared/src/agent-protocol.ts:1-2 | Whole lines that do not contain the start marker can stand between frames without harm, even right before a marker. |
| FrameParser.OwnMarkers | runners/shared/src/agent-protocol.ts:1-2 | The program's two markers meet what the round trip asks of markers: no line breaks, and the end marker does not occur in the start marker. |
| FrameParser.WrittenPayloadRecovered | runners/shared/src/agent-protocol.ts:95-102 | What the writer prints for a trimmed payload is read back as that payload if and only if the payload does not contain the end marker, which the writer does not escape. |
| FrameParser.EndMarkerCutsShort | src/agent-runner-process.ts:278-282 | A payload that contains the end marker is read back cut short. |
| AgentStream.CaptureIsPrefix | src/agent-runner-process.ts:242-265 | However a stream arrives, its capture is the first part up to the size limit, and is marked truncated exactly when there was more. |
| AgentStream.Stream.OnStdout | src/agent-runner-process.ts:730-748 | Captured text, truncation flag, parse buffer, delivered outputs and session id are functions of all text received so far. |
| AgentStream.Stream.ConsumeMarkers | src/agent-runner-process.ts:275-316 | The loop takes every complete frame, delivers the ones that decode in order, drops the others, and leaves what parsing leaves. |
| AgentStream.Stream.Consume | src/agent-runner-process.ts:287-303 | By what the decoder makes of the frame: a frame that decodes adds exactly its output to the deliveries, terminal or not, and renames the session if it names one; one that does not decode changes nothing. |
| AgentStream.Stream.AppendStdout | src/agent-runner-process.ts:242-265 | Adds what fits, and once truncated nothing any more. |
| AgentStream.Stream.OnStderr | src/agent-runner-process.ts:318-361 | The capture of the error stream is a function of all text received. |
| AgentStream.DecodedCorresponds | src/agent-runner-process.ts:275-316 | The outputs delivered are those of the frames that decode, one for each and in their order: a frame that decodes is delivered at the place given by the number of decoding frames before it. |
| AgentStream.FrameOf | src/agent-runner-process.ts:275-316 | The other way round, every output delivered is the decoded value of the frame at its place. |
| AgentStream.LastSessionNamed | src/agent-runner-process.ts:289-291 | The session is that of the last output that names one, and empty when none does. |
| AgentStream.StreamDeliversFrames | src/agent-runner-process.ts:267-316 | For a stream of framed bodies that all decode, with noise between them, however it is cut into chunks: one delivery for each body, in order, with its decoded value. |
| AgentStream.StreamDeliversWritten | src/agent-runner-process.ts:267-316 | For a stream of framed bodies and noise, the object has delivered exactly the decoded bodies, in order, and keeps the tail. |
| AgentHost.Host.OnStdoutData | src/agent-runner-process.ts:730-748 | The chunk goes through the parser, and exactly the outputs that it completes restart the activity timer and join the delivery chain, so that the chain is at any time the last outputs decoded from the text received. |
| AgentHost.Host.OnStderrData | src/agent-runner-process.ts:318-361 | A chunk on the error stream is captured, restarts the activity timer, and leaves the outputs alone. |
| AgentHost.Host.OnDeliveryDone | src/agent-runner-process.ts:116-134 | The delivery takes the first output waiting; the clean-up is scheduled only after the delivery of an output that the text received holds as terminal. |
| AgentHost.OthersKeepOutputs | src/agent-runner-process.ts:619-787 | Timers, exit, close and error events leave the outputs and the schedule of the clean-up alone, so that the handlers of the host for them keep it valid. |
| AgentHost.BoundedOnlyByATerminalFrame | src/agent-runner-process.ts:157-209 | Parser and timers together: the time that an open streaming run can still take is bounded only if the text received holds a complete frame that decodes to a terminal output whose delivery is done. |
| Supervisor.StepInv | src/agent-runner-process.ts:619-787 | Every event keeps the timer and settlement invariant: the hard timer where it was set, the activity timer at the last sign of life, clean-up timers at their multiples, no timers after closing, and closed exactly when resolved or about to be. |
| Supervisor.HardDeadline | src/agent-runner-process.ts:656-692 | In every run, past the hard limit after the start the run is closed or timed out, whatever it printed; likewise past the activity limit after the last sign of life. |
| Supervisor.TimesOutAtItsLimit | src/agent-runner-process.ts:660-692 | A timeout happens only to an open run, exactly at the limit that it names: the hard limit after the start, or the activity limit after the last sign of life. |
| Supervisor.HardTimeoutNeverSucceeds | src/agent-runner-process.ts:363-390 | A hard timeout is never changed afterwards, and the run resolves as a hard-timeout or spawn error, never as a success. |
| Supervisor.SucceedsExactlyWhen | src/agent-runner-process.ts:593-617 | The end of a run is a success if and only if it was not a hard timeout and it either exited with code 0 in streaming mode or was stopped, by signal or activity timeout, after producing output. |
| RunTimeline.StepSeen | src/agent-runner-process.ts:619-787 | Every event does to what a run has seen exactly what the events tell: when it last gave a sign of life, its output and the outputs that wait, its timeout, its signals, its end and its result. |
| RunTimeline.SeenAsTold | src/agent-runner-process.ts:619-787 | Over all runs, from the events alone: the last sign of life is the time of the last error output or non-empty streamed output that came while the run was open and not timed out, or the start; the run is resolved with the result, and behind the deliveries, that its history tells; and while it is open and has not timed out, its activity timer stands one limit after that sign of life and its hard timer one limit after the start. |
| RunTimeline.SilenceTimesOut | src/agent-runner-process.ts:687-692 | In every run that is open and has not timed out, the activity timer can fire if and only if one activity limit has passed since the last sign of life. |
| RunTimeline.ExitClosesExactly | src/agent-runner-process.ts:760-765 | In every run an exit event closes an open run if and only if the run is streaming and some event has brought output; a close event always does. |
| Supervisor.ClosesOnce | src/agent-runner-process.ts:701-720 | The close handler runs at most once, a closed run is sent no signal, and the first resolution stands. |
| Supervisor.ReleasedAfterTerminalOutput | src/agent-runner-process.ts:136-212 | From the first delivery of a terminal output to an open run: SIGTERM within one exit limit, SIGKILL within two, closed within three, or closed before. |
| Supervisor.TimeoutEscalates | src/agent-runner-process.ts:660-682 | An open timed-out run has been sent SIGTERM at once and SIGKILL when the grace time is over. |
| Supervisor.ClosedRunResolves | src/agent-runner-process.ts:392-405 | A closed run is resolved as soon as the outputs chained before its end are delivered, successfully or not. |
| RunResolution.ResolvedAfterItsOutputs | src/agent-runner-process.ts:377-417 | Over all histories: a run that is closed, other than by a spawn error, is resolved if and only if the outputs chained before its end have all had their delivery, or a spawn error is reported; so none of them is delivered after the result. |
| RunResolution.ClosesBehind | src/agent-runner-process.ts:593-617 | However an open run is closed, short of a spawn error, its resolution waits behind exactly the outputs chained by then. |
| Supervisor.BoundedExactlyWhenScheduled | src/agent-runner-process.ts:157-209 | For all limits and every open run: there is a time after which the run is closed however it goes on, if and only if a terminal output has been delivered. |
| Supervisor.NeverReleasedWithoutTerminalOutput | src/agent-runner-process.ts:660-682 | For all limits and every time there is a run that was timed out, got both signals, and is still open then. |
| AgentProcess.AgentRun.ResetTimeout | src/agent-runner-process.ts:688-692 | Moves the activity timer only while the run is open and not timed out. |
| AgentProcess.AgentRun.KillOnTimeout | src/agent-runner-process.ts:660-682 | The first timeout of an open run is recorded and escalated; later ones change nothing. |
| AgentProcess.AgentRun.FinishProcess | src/agent-runner-process.ts:701-720 | Closes once, clears every timer, and hands over to the close handler. |
| AgentProcess.AgentRun.HandleProcessClose | src/agent-runner-process.ts:593-617 | Resolves as the decision over timeout, signal, exit code and mode says, behind the pending deliveries where the program waits for them. |
| AgentProcess.AgentRun.SchedulePostTerminalCleanup | src/agent-runner-process.ts:157-209 | Arms the three clean-up timers at most once and never after closing. |
| AgentProcess.AgentRun.OnStdout | src/agent-runner-process.ts:730-748 | Every decoded output of a chunk, given by its terminal flag, restarts the activity timer and joins the delivery chain, in order; AgentHost ties the flags to the text. |
| AgentProcess.AgentRun.OnDeliveryDone | src/agent-runner-process.ts:124-133 | A delivered terminal output starts the clean-up; the last awaited delivery releases the resolution. |
| AgentProcess.AgentRun.OnTimeout | src/agent-runner-process.ts:682 | Silence up to the activity limit times the run out. As every handler, it keeps the timer and settlement invariant and takes back neither a timeout nor a resolution. |
| AgentProcess.AgentRun.OnHardTimeout | src/agent-runner-process.ts:683-686 | The hard limit times the run out unless it is over or already timed out. |
| AgentProcess.AgentRun.OnKillTimer | src/agent-runner-process.ts:677-679 | SIGKILL after the grace time, if the run is still open. |
| AgentProcess.AgentRun.OnTermTimer | src/agent-runner-process.ts:162-176 | SIGTERM one exit limit after the terminal output, if the run is still open. |
| AgentProcess.AgentRun.OnPostKillTimer | src/agent-runner-process.ts:178-192 | SIGKILL two exit limits after it, if the run is still open. |
| AgentProcess.AgentRun.OnStderr | src/agent-runner-process.ts:352 | Output on the error stream restarts the activity timer. |
| AgentProcess.AgentRun.OnResolveTimer | src/agent-runner-process.ts:193-208 | Without an exit event the run is released as if killed. |
| AgentProcess.AgentRun.OnExit | src/agent-runner-process.ts:761-765 | An exit event finishes a streaming run only once it has produced output. |
| AgentProcess.AgentRun.OnClose | src/agent-runner-process.ts:760 | A close event finishes the run. |
| AgentProcess.AgentRun.OnError | src/agent-runner-process.ts:767-785 | A spawn error closes the run, clears its timers and resolves it as an error if nothing did before. |
| CoalescingTask.SingleFlight | src/coalescing-async-task.ts:8-46 | At most one run of the task is in flight, and there are never more runs than requests. |
| CoalescingTask.NoRequestLost | src/coalescing-async-task.ts:8-46 | Over all histories, cancellations and runs that throw included: an idle task has a request left that no run covers and nobody withdrew if and only if its last run threw with a request pending; without a throw none is ever left. |
| CoalescingTask.RequestLostByThrow | src/coalescing-async-task.ts:37-45 | A history in which the run for the first of two requests throws and the second is not covered. |
| CoalescingTask.BurstIsOneRun | src/coalescing-async-task.ts:37-45 | Any number of requests during a run that ends without throwing leads to exactly one more run, which covers them all; after a run that throws, none starts before the next request, which covers them all. |
| CoalescingTask.CoalescingAsyncTask.Request | src/coalescing-async-task.ts:8-14 | Marks the request and starts a run only when none is in flight. |
| CoalescingTask.CoalescingAsyncTask.Drain | src/coalescing-async-task.ts:37-42 | Starts the requested run or ends the drain. |
| CoalescingTask.CoalescingAsyncTask.Fail | src/coalescing-async-task.ts:37-45 | A run that throws ends the drain and leaves the request as it is. |
| CoalescingTask.CoalescingAsyncTask.CancelPending | src/coalescing-async-task.ts:16-18 | Withdraws the pending request, not the run. |
| CoalescingTask.CoalescingAsyncTask.Start | src/coalescing-async-task.ts:20-23 | Starts the ticker if enabled. |
| CoalescingTask.CoalescingAsyncTask.Stop | src/coalescing-async-task.ts:25-29 | Stops the ticker. |
| TurnSafety.StepInv | src/message-turn-controller.ts:570-760 | Every stretch of code between two awaits keeps the invariant that a message given up for a final text is neither tracked nor being edited, and issues no edit for one already given up. |
| TurnSafety.NoStaleEdit | src/message-turn-controller.ts:652-760 | Once a progress message is handed over for the final text, for every interleaving of ticks, slow edits and handlers: it is not tracked, no edit of it is in flight, and none is ever issued again. |
| TurnSafety.HandOverIsClean | src/message-turn-controller.ts:666-709 | At the hand-over no edit is in flight, the ticker is off and nothing is requested; the tracked message is the one to be replaced unless there are attachments. |
| TurnSafety.AtMostOneDelivery | src/message-turn-controller.ts:711-760 | A turn makes at most one final delivery; what it replaces has been handed over; and while and after it is made no edit is in flight, due or possible. |
| TurnSafety.FinalIsFinal | src/message-turn-controller.ts:149-159 | After the final phase nothing more is created, edited or delivered in the turn. |
| TurnEdits.DropsUnderEditStep | src/message-turn-controller.ts:353-402 | For every step: it gives the tracked message up while that message's edit stays in flight if and only if it is the deciding step of finish and a human message has closed a successful turn that has shown progress and has a text to replay. |
| TurnEdits.DroppedUnderEdit | src/message-turn-controller.ts:353-402 | The same at any point of any turn. |
| TurnEdits.EditsWithoutHandler | src/message-turn-controller.ts:570-604 | Between two handlers, and after the last one, the ticker and the edit task alone can issue another edit if and only if the channel can edit, a message with a text is tracked, and a request is pending or the ticker is on. |
| TurnEdits.EditsAfterFinish | src/message-turn-controller.ts:386-401 | When finish returns (and does not throw) the ticker is off; an edit is in flight if and only if finish published and finalized nothing and one was in flight when it decided; and one can follow if and only if, in that case, a request was pending for a tracked, editable message with a text that no human message made finish drop. |
| TurnEdits.EditsIssuedAfterFinish | src/message-turn-controller.ts:386-401 | So another edit can be issued after finish has returned if and only if that is how it returned. |
| TurnEdits.EditIssuedAfterFinish | src/message-turn-controller.ts:386-401 | A turn in which this happens without any human message. |
| TurnDeliveries.StepMatches | src/message-turn-controller.ts:149-402 | Every stretch of code between two awaits keeps in step with what was announced: nothing, a text on its way, delivered, or denied. |
| TurnDeliveries.TurnDelivers | src/message-turn-controller.ts:149-402 | At every point of every turn something has been delivered if and only if a final output with a visible text, a replay or a failure was announced and its handler came to the delivery without being abandoned while the run could deliver; then it is that text, once, and without a message to replace if it has attachments; and no handler returns with an announced text undelivered unless it was abandoned or the run could not deliver. |
| TurnDeliveries.AnnouncementIsDelivered | src/message-turn-controller.ts:652-760 | Of every handler that announces a text, at any point of any turn: once it has returned without being abandoned, exactly that text has been delivered if the run could deliver then, in place of the message that was tracked at the hand-over unless it has attachments, and that message is given up. |
| TurnProgress.FinalTextReplacesTracked | src/message-turn-controller.ts:212-255 | A final output with a visible text that comes before the final phase, once its handler has returned without being abandoned and while the run may deliver: the deliveries of the turn are exactly that text, in place of the very message that was tracked when the output arrived, or as a new message if it has attachments. |
| TurnProgress.StepTold | src/message-turn-controller.ts:149-760 | For every step, one rule for each field, by the event and not by the handler: the tracked message, the text it shows and the one finish may replay, what it is known to show, its failed edits, the ticker, the pending request, when exactly an edit is issued and of what, the phase, the typing indicator, the messages created and given up, and how a first progress text is sent. |
| TurnProgress.TurnTold | src/message-turn-controller.ts:149-760 | These rules hold of the next step at any point of any turn. |
| TurnProgress.NothingHeldBack | src/message-turn-controller.ts:483-568 | At any point of any turn: between handlers no progress text is held back and no message is being created; a message is sent only while none is tracked; and a publication begins with nothing to flush. |
| TurnProgress.ProgressWhenShown | src/message-turn-controller.ts:773-885 | Over all turns: short of a final text a turn is in its progress phase if and only if a message has been created or sent. |
| TurnReturns.FailedExactlyWhen | src/message-turn-controller.ts:149-362 | Over all turns, from the events alone: the turn counts as failed if and only if a poisoned output came before the final phase, a handler returned that had been given a progress or final output with an error, or finish was told of an error and its typing indicator went off. |
| TurnReturns.LeftBehind | src/message-turn-controller.ts:238-401 | At any point of any turn at which no handler runs: if the latest was for a final output and was not abandoned the typing indicator is off; if it was finish the ticker is off, and the typing indicator too unless the turn came to a delivery. |
| TurnSafety.HumanCloseLeavesEditInFlight | src/message-turn-controller.ts:368-370 | A turn closed by a human message in which the progress message is dropped while its edit is in flight. |
| MessageTurn.MessageTurnController.SyncTrackedProgressMessageOnce | src/message-turn-controller.ts:570-604 | Issues an edit of the tracked message only if it may, can and has something new to show. |
| MessageTurn.MessageTurnController.EditAnswered | src/message-turn-controller.ts:605-637 | A late answer for another message changes nothing; the third failure in a row stops the ticker. |
| MessageTurn.MessageTurnController.ResetProgressState | src/message-turn-controller.ts:435-456 | Stops the ticker, withdraws the request and forgets the message. |
| MessageTurn.MessageTurnController.SendProgressMessage | src/message-turn-controller.ts:773-804 | Skips, updates or creates the progress message up to the next await. |
| MessageTurn.MessageTurnController.SendNow | src/message-turn-controller.ts:806-862 | After the typing indicator: an edit request, a tracked message, or a plain one. |
| MessageTurn.MessageTurnController.ProgressMessageCreated | src/message-turn-controller.ts:822-872 | Tracks the created message and starts the ticker, or falls back to a plain message. |
| MessageTurn.MessageTurnController.EnsureProgressMessageExists | src/message-turn-controller.ts:462-481 | Creates the message at most once at a time, with the pending or latest heading. |
| MessageTurn.MessageTurnController.FlushPendingProgress | src/message-turn-controller.ts:526-568 | Sends a pending text that differs from the final one, unless the run may not deliver or reviews. |
| MessageTurn.MessageTurnController.PublishTerminalText | src/message-turn-controller.ts:652-668 | Stops the ticker and withdraws the request before anything else of a publication. |
| MessageTurn.MessageTurnController.HandOverProgress | src/message-turn-controller.ts:670-709 | Gives the progress message up, to be replaced unless there are attachments. |
| MessageTurn.MessageTurnController.DeliverFinalText | src/message-turn-controller.ts:711-760 | Reaches the final phase, and delivers if the run still may. |
| MessageTurn.MessageTurnController.HandleOutput | src/message-turn-controller.ts:149-255 | Keeps the invariant of the hand-over and issues no edit of a message given up before, as every method below that the event loop calls does. Dispatches by phase, and discards everything after the final. |
| MessageTurn.MessageTurnController.Finish | src/message-turn-controller.ts:353-402 | Replays, drops or finalizes the progress message, or publishes the failure text, as the outcome asks. |
| MessageTurn.MessageTurnController.OnTick | src/coalescing-async-task.ts:20-23 | A tick requests an edit. |
| MessageTurn.MessageTurnController.OnResume | src/message-turn-controller.ts:658-680 | Goes on after an await: publication steps only when the edit task is idle. |
| MessageTurn.MessageTurnController.OnEditDone | src/message-turn-controller.ts:600-637 | An answered edit leaves the drain loop to go on. |
| MessageTurn.MessageTurnController.OnTaskThrows | src/message-turn-controller.ts:570-574 | A run of the edit task that throws ends its drain, and the handler that awaits it is abandoned. |
| MessageTurn.MessageTurnController.OnCreateDone | src/message-turn-controller.ts:822-872 | The created message is tracked, or a plain one sent. |
| MessageTurn.MessageTurnController.OnPlainDone | src/message-turn-controller.ts:814-820 | A sent plain message shows progress; a failed one abandons the handler. |
| MessageTurn.MessageTurnController.OnDeliverDone | src/message-turn-controller.ts:740-760 | The publication ends; a delivery that threw abandons the handler in its final phase. |
| MessageTurn.MessageTurnController.OnTypingDone | src/message-turn-controller.ts:887-907 | Goes on after the typing indicator, or abandons the handler when switching it failed. |
| AccountSearch.FindNextSpec | src/codex-token-rotation.ts:733-754 | The search returns the account at the least circular offset 1..n-1 that is usable; if none, the least that is usable with exhausted weekly limits ignored; and nothing if and only if no other account is usable even then. Accounts looked at are at most restored. |
| AccountSearch.RotateSpec | src/codex-token-rotation.ts:651-728 | Rotation succeeds if and only if another account is usable once the current one is blamed; it then moves to that different account, alive, not leased and not locked, and lifts its limit; otherwise the current account stays. One account or the pool-unavailable error changes nothing. |
| AccountSearch.ClaimSpec | src/codex-token-rotation.ts:519-547 | A claim leases the first account from the current one on that is usable and whose lock can be acquired, makes it current, and fails if and only if there is none. |
| AccountObstacles.UsableIsFree | src/codex-token-rotation.ts:437-488 | Usability on the fields: an account is usable if and only if no obstacle but those ignored stands against it, of being dead with no newer auth file, limited past now, a weekly usage of 100 or more, leased here, or locked by a living process without expiry. |
| AccountObstacles.SearchTakesFirstFree | src/codex-token-rotation.ts:733-754 | On the fields alone: the search takes the first other account without an obstacle, limits aside if they are ignored; if each has one, the first with none but an exhausted week; and none if and only if each has another. |
| AccountObstacles.BlameOnFields | src/codex-token-rotation.ts:660-700 | What a failure does to the fields of the current account, and to no other. |
| AccountObstacles.RotationTakesFirstFree | src/codex-token-rotation.ts:651-728 | On the fields alone: a rotation moves to the first other account without an obstacle once the current one is blamed, never to a limited one unless limits are ignored, an exhausted week counting only while another account has one left; it stays if and only if each has an obstacle; and it lifts the limit of the account it takes. |
| AccountObstacles.ClaimTakesFirstFree | src/codex-token-rotation.ts:519-547 | On the fields alone: a claim leases the first account from the current one on that has no obstacle at all and whose lock file can be read, and none if and only if there is none. |
| AccountUpdates.FindNextLooks | src/codex-token-rotation.ts:733-754 | A search looks at the accounts up to the one its first pass finds, or at all others; of those looked at exactly the dead ones with a newer auth file become healthy and lose their limit; no other field of any account changes. |
| AccountUpdates.RotationOnFields | src/codex-token-rotation.ts:651-728 | All fields of all accounts after a rotation: the blamed one, those looked at, and the one taken, whose limit alone is lifted. |
| AccountUpdates.AdvanceOnFields | src/codex-token-rotation.ts:761-769 | All fields after advancing: the next account is taken as a search takes it, and keeps its limit. |
| AccountUpdates.UsageOnFields | src/codex-token-rotation.ts:774-815 | All fields after usage is known: it is noted on its account, and only an exhausted week of the current one among several makes the pool move on, as a search does. |
| AccountUpdates.ClaimOnFields | src/codex-token-rotation.ts:519-547 | All fields, the lock files and the leases after a claim: the accounts looked at, and the one taken, which carries the lease of this process for two hours in memory and in its lock file. |
| AccountUpdates.ReleaseOnFields | src/codex-token-rotation.ts:426-435 | All fields, the lock files and the leases after a release: the memory goes only where the lease is still the one remembered, the lock file only where it does not name another. |
| AccountUpdates.SuccessOnFields | src/codex-token-rotation.ts:817-842 | After a success the current account is neither dead nor limited, every other obstacle stands as it did, and no other account changes. |
| AccountUpdates.SwitchOnFields | src/codex-token-rotation.ts:319-347 | A switch to another account in range makes it current and lifts its limit and no other obstacle; any other call changes nothing. |
| AccountSearch.ChosenIsClaimableUnlessCorrupt | src/codex-token-rotation.ts:382-424 | The account that a search returns can be leased if and only if its lock file is not corrupt and it is usable without ignoring any limit: a corrupt lock does not keep the search away from it. |
| AccountSearch.UsableClaimable | src/codex-token-rotation.ts:382-465 | A usable account can be claimed if and only if its lock file is not corrupt. |
| AccountSearch.CorruptUntilReleased | src/codex-token-rotation.ts:382-435 | A step ends the corruption of a lock file if and only if it releases a lease on that account, and no step leases the account. |
| AccountSearch.CorruptLockIsNeverLeased | src/codex-token-rotation.ts:382-424 | Over every run, until a lease on it is released, an account with a corrupt lock file is leased to nobody. |
| AccountSearch.RotationChoosesCorrupt | src/codex-token-rotation.ts:651-728 | A pool in which a rotation succeeds in moving to an account with a corrupt lock file, after which nothing can be claimed. |
| RotationBound.RotationEnds | src/codex-token-rotation.ts:675-727 | While no auth file is rewritten (none being newer than now) and no account is declared healthy or chosen by hand, at most n-1 rotations over authentication failures succeed, mixed with claims, releases, other rotations, usage reports and time, however many dead accounts can be restored at the start. |
| LeaseSafety.StepInv | src/codex-token-rotation.ts:382-547 | Every event, of this process or of others, keeps every live lease guarded by the lock file of its account, finds all but the latest lease of an account at their end, and lets the process remember no lease but its latest on an account. |
| LeaseSafety.Exclusive | src/codex-token-rotation.ts:519-547 | Over every run, no account has two leases at a time that are unreleased, unexpired and of a living process. |
| LeaseSafety.ReleaseFreesOnlyItself | src/codex-token-rotation.ts:426-435 | Releasing a lease, however late or often, leaves every other live lease with its lock; if that lease is of this process, what is remembered of its account stays too; if it is of another one, nothing but the released lease is forgotten. |
| LeaseSafety.SuccessorsKeepTheirLease | src/codex-token-rotation.ts:519-547 | Over every run of a process that starts with nothing leased and nothing remembered: releasing any lease leaves the memory and the lock of every other live lease of this process as they are. |
| LeaseSafety.ReleaseFreesItself | src/codex-token-rotation.ts:536-542 | Releasing a live lease removes its lock and its memory. |
| LeaseSafety.LiveLeaseBlocksClaims | src/codex-token-rotation.ts:437-506 | A live lease keeps claims off its account, also after the account was marked dead, forgot the lease and had its auth file refreshed. |
| CodexPool.CodexAccounts.RestoreDeadAuthIfAuthFileChanged | src/codex-token-rotation.ts:467-488 | Restores a dead account exactly when its auth file is newer than its death. |
| CodexPool.CodexAccounts.IsCodexAccountUsable | src/codex-token-rotation.ts:437-465 | Answers usability of the account as restored, and at most restores it. |
| CodexPool.CodexAccounts.SearchFrom | src/codex-token-rotation.ts:739-743 | One circular pass of the search. |
| CodexPool.CodexAccounts.FindNextCodexAvailable | src/codex-token-rotation.ts:733-754 | Both passes of the search. |
| CodexPool.CodexAccounts.TryAcquireDiskLease | src/codex-token-rotation.ts:382-424 | Creates the lock or takes a stale one over; otherwise changes nothing. |
| CodexPool.CodexAccounts.ClaimCodexAuthLease | src/codex-token-rotation.ts:519-547 | The claiming loop leases what the specification leases. |
| CodexPool.CodexAccounts.ReleaseLease | src/codex-token-rotation.ts:536-542 | Clears the memory only of the lease it belongs to. |
| CodexPool.CodexAccounts.ReleaseDiskLease | src/codex-token-rotation.ts:426-435 | Leaves a lock that names another lease. |
| CodexPool.CodexAccounts.MarkCodexAccountDeadAuth | src/codex-token-rotation.ts:490-506 | Marks the account dead and forgets its lease, not its lock. |
| CodexPool.CodexAccounts.RotateCodexToken | src/codex-token-rotation.ts:651-728 | Blames the current account, searches and moves as specified. |
| CodexPool.CodexAccounts.AdvanceCodexAccount | src/codex-token-rotation.ts:761-769 | Moves on after a success, or stays. |
| CodexPool.CodexAccounts.UpdateCodexAccountUsage | src/codex-token-rotation.ts:774-815 | Leaves the current account when its weekly limit is exhausted and another is usable. |
| CodexPool.CodexAccounts.MarkCodexTokenHealthy | src/codex-token-rotation.ts:817-842 | Clears death and limit of the current account. |
| CodexPool.CodexAccounts.SetCurrentCodexAccountIndex | src/codex-token-rotation.ts:319-347 | Refuses an index out of range; otherwise switches and lifts the limit. |
| ClaimSafety.StepInv | src/ipc.ts:45-206 | Every single file operation, arrival or crash keeps the protocol's invariant. |
| ClaimSafety.AtMostOnce | src/ipc.ts:96-203 | For any arrivals and crashes between any two operations, the handler of a file is invoked at most once. |
| ClaimSafety.NothingLost | src/ipc-file-claims.ts:14-65 | Every file that arrived is in exactly one of inbox, processing, errors or deleted (or was taken from the inbox by another party), and is deleted only after its handler returned without an error. |
| ClaimSafety.ProcessingEmptyWithoutCrash | src/ipc.ts:74-94 | Without a crash only the file being worked on is in a processing directory, and all are empty when a poll starts. |
| ClaimSafety.PollRecovers | src/ipc-file-claims.ts:33-54 | The first poll that completes after a crash leaves no leftover in the processing directories of the groups it covers. |
| ClaimSafety.ServedToTheEnd | src/ipc.ts:96-203 | When a directory is done, every file that was listed is deleted, in the errors, or was taken away by others. |
| ClaimSafety.RunsOnward | src/ipc-file-claims.ts:14-65 | What left the inbox never comes back, and what is deleted or in the errors stays there. |
| FileFates.StepFates | src/ipc-file-claims.ts:14-65 | Every file operation does to every file exactly what it means for it, and to all others nothing but that a crash ends the work on them. |
| FileFates.FatesFromHistory | src/ipc.ts:45-206 | Over all runs, with crashes between any two operations: every file is where the operations on it have put it, and its handling has come as far as they say. |
| FileFates.EndsExactly | src/ipc.ts:106-155 | Over all runs: a file is deleted if and only if the watcher deleted it, its handler having returned without an error, and in the errors if and only if it was quarantined or its claim was moved there. |
| FileFates.StepAgenda | src/ipc.ts:45-206 | A poll is planned, its jobs are taken up one by one, each goes through its listing file by file, and only a claim that throws gives up the rest of a directory; a directory counts as clean from the end of its quarantine to the next crash. |
| IpcWatcher.Watch.ProcessIpcFiles | src/ipc.ts:45-206 | The whole poll is a run of the protocol, after which no processing directory of its groups holds a file; and every JSON file that was in the inbox of one of these groups when it began is deleted, in the errors, or was taken away by others, unless a claiming rename of its group threw. |
| IpcWatcher.Watch.ProcessGroup | src/ipc.ts:67-203 | Quarantines both directories of a group before serving either; every JSON file that had come in for it ends deleted, in the errors, or taken away by others, unless a claiming rename threw; a throw in one directory does not keep the other from being served. |
| IpcWatcher.Watch.QuarantineClaimedIpcFiles | src/ipc-file-claims.ts:33-54 | Moves every JSON leftover of a directory to the errors, after which nothing of the directory is in processing. |
| IpcWatcher.Watch.ServeDirectory | src/ipc.ts:96-163 | Every JSON file that is in the directory when it is listed ends deleted, in the errors, or taken away by others, unless a claiming rename throws, which ends the work on the directory; any other file stays in its inbox or ends so too. |
| IpcWatcher.Watch.ServeFile | src/ipc.ts:104-105 | One file of the listing is claimed and settled; one that is gone is skipped; a rename that throws is passed on. |
| IpcWatcher.Watch.HandleClaimed | src/ipc.ts:106-155 | The claimed file is deleted if it parses, its handler returns and its deletion succeeds, and is in the errors otherwise, a failed deletion included; its handler is invoked exactly when it parses. |
| IpcWatcher.Watch.ClaimIpcFile | src/ipc-file-claims.ts:14-31 | The rename takes the file, finds it gone, or throws. |
| IpcWatcher.Watch.MoveClaimedIpcFileToError | src/ipc-file-claims.ts:56-65 | The rename that parks a failed file. |

## Left out

- Logging, status listing, `sendMessage`, `killProcess`, post-close timers and the last close request of the scheduler: they
  change nothing that the blocks above read.
- Active-run input claims (`recordActiveMessageRunInput`, `isActiveMessageRunInput`): a set of message ids, easy.
- GroupQueueClass.GroupQueue.Shutdown: waiting for the active processes to exit after the loop is not modelled.
- GroupQueueClass.GroupQueue.CloseStdin: writing the close sentinel and its failure, the record of the last close request and
  the post-close timers are not modelled.
- GroupQueueClass.GroupRecord.ResetRunState: the close request, the input claims, the start time and the direct deliveries,
  which the program clears too, are not in this record; `DeliveryRecord` has the direct deliveries.
- GroupQueueClass.GroupQueue.EnterRecoveryMode: the timer it arms is not a field; its firing is an event that may come at any
  time after.
- QueueSingle.SingleRunPerGroup: histories with a task before the handler is installed are not covered.
- QueueSingle.SingleRunStep: for blocks with a handler or that install it; without one nothing processes messages.
- QueueDrain.DrainClosedForm: for a queue with a handler. Without one a drain starts nothing but tasks, and
  `MessagesDroppedStep` says what it drops.
- QueueDrain.DrainCounts: for a queue with a handler, as the closed form.
- QueueCapacity.TaskLimitStep: for a queue with a handler; without one a drain starts tasks of groups with messages without
  looking at the limit.
- GroupQueueClass.GroupQueue.RunTask: what the task does is opaque; success and failure end the run alike, as in the program.
- Byte-level decoding of the streams: text arrives as characters; JSON decoding is a function from text to an optional output.
- The legacy parse of the whole captured output when nobody listens to the stream: its result is one outcome of the supervisor.
- Supervisor.ClosedRunResolves: a delivery callback that never settles keeps a closed run unresolved, as in the program.
- Signals, exit events and spawn errors are events that may come in any order and number; log files are not modelled.
- Rendering of progress messages, tool activity lists and subagent tracks: the rendered text is an input of each step.
- Callbacks of the turn controller that throw within a handler (those that throw within the edit task are modelled, at any
  time its drain goes on), the idle timer, session clearing and close requests.
- TurnSafety.NoStaleEdit: handlers that overlap each other are not modelled. That they do not is an assumption, which a late
  `handleOutput` beside `finish` can break.
- The persisted rotation state file, its reload, and copying a session's auth file back to its account.
- Account metadata, usage percentages other than the weekly limit, and the classification of error texts.
- LeaseSafety.Exclusive: two processes interleaving inside one takeover of a stale lock are not modelled, nor a living
  process that cannot be signalled for lack of permission.
- IPC message forwarding and task processing: the handler is an opaque call that may fail.
- IpcWatcher.Watch.ProcessIpcFiles: a failing quarantine rename, which would end the polling for good, is assumed away; crashes
  are events of the protocol and not of this method.
- The paired-turn state machine, databases, dashboards, prompt building and setup.
