# Verified models of Dynaxis

Dynaxis is a C++ game and chat stack: a gateway, a server core and a set of write-behind tools. This project models
its protocols and data paths in Dafny and proves what they keep over every run. `dafny verify dfyconfig.toml` checks it.

Each protocol is a step machine whose labels carry all nondeterminism (crashes, Redis and database outcomes, clock
readings, random draws, answers of external services), and the theorems are about every run of that machine. Where the
source changes state in place there is a class beside it whose methods are proved to be paths of the machine or to
equal its functions, so the theorems hold of the code's own control flow.

| part | files | what is proved |
|---|---|---|
| Write-behind pipeline | `WbFields`, `WbWorker`, `WbReplayer`, `WbHistories`, `WbSystem`, `WbSettled`, `WbRetry`, `WbScenarios` | no event is lost, one right row per event, column by column, what is acknowledged and that it stays so, exactly when every run stores the worker's row, the retry chain of every dead-lettering over whole runs, and exactly when it ends in the dead stream |
| Task scheduler | `RepeatBackoff`, `SchedulerModel`, `SchedulerProofs`, `SchedulerTheorems`, `SchedulerPoll`, `TaskScheduler` | lazy queues agree with a plain map, a poll is exact, when every task is due, safety of cancel and reschedule, what a shutdown leaves to run, backoff with and without jitter |
| Gateway byte streams | `Packet`, `FrameInspector`, `Handshake`, `WireScan`, `SendQueue`, `Bridge` | chunking does not matter (and exactly when it would), the handshake is transparent and exactly what reaches the bridge, the scan loop inverts the encoder (and exactly when it is the scan), queue accounting and order, client socket to backend socket end to end |
| Routing | `SessionDirectory`, `BackendSelection`, `ResumeLocator` | agreement and bounded staleness over many gateways, exactly what ends a binding, exact selection, exact round trip |
| UDP bind | `UdpBind` | one endpoint per ticket, exactly when requests are accepted and datagrams forwarded, spacing of failures |
| Shared definitions | `Options`, `Numbers`, `Sequences` | |

Some properties one might expect are false of the code as it stands; the project keeps the code and states exactly when
they hold:

- The worker's `SendToDlq` ignores the answer of `xadd` (tools/wb_worker/main.cpp:713-714), so an append that returns
  without appending loses an event: `WbScenarios.UnappendedIsLost`. `WbSystem.NoLoss` names that case, and
  `WbSystem.NothingLost` excludes it by hypothesis.
- The replayer rebuilds a row with the first of repeated field names, without the reserved names and with UUID texts as
  they are, where the worker takes the last one, keeps all names and drops malformed UUIDs: the two rows agree exactly
  for well-formed events, `WbFields.ReplayAgreesExactly`. A wrong row is stored in some run exactly when the event is
  not well formed and the database accepts the replayed row, `WbScenarios.RightRowExactly`: a repeated "type" does it
  (`WbScenarios.RepeatedTypeReplaysWrong`), a UUID text that does not cast cannot
  (`WbScenarios.UncastableNeverReplayed`), because that insert fails.
- The scan for the resume token adds an offset and a 64-bit length without looking for a wrap-around
  (gateway/src/gateway_connection.cpp:102, 125). On `0A F5 FF FF FF FF FF FF FF FF 01` the loop never ends:
  `WireScan.WrappedLoopsForever`. It ends with the answer of the scan over unbounded sums exactly when no length on the
  way passes the test by wrapping around, or the first that does leads back to an offset from which the loop ends
  without a token: `WireScan.ScanExactly`; the second case exists, `WireScan.WrappedMayEnd`. It takes the scan's way to
  the scan's end exactly when no length on that way wraps around: `WireScan.LoopIsScanExactly`.
- A shutdown does not stop the poll it comes in: the live entries of its batch still start, and nothing else does,
  `SchedulerPoll.ShutdownLeavesBatch`; `SchedulerPoll.ShutdownStillStarts` is a run in which one does.
- A read refused for want of room while another close is under way can leave a hole in what the backend gets:
  `Bridge.RefusalLeavesHole`. Up to that hole, and always without one, the order is kept: `Bridge.ClientBridge.EndToEnd`.
- A retried flush dead-letters an event again: `WbScenarios.DeadLetteredTwice`. The retry chain is therefore stated for
  every dead-letter entry on its own, `WbRetry.RetryChain`, and ends in the dead stream exactly when no replayer lets a
  copy go, `WbRetry.RetryChainEnds`.
- The frame inspector drops unfinished bytes when a piece and the kept bytes exceed 256 KiB:
  `FrameInspector.OverlongPieceDrops`, `FrameInspector.ChunkingExactly`.
- The handshake closes on a read that does not fit beside the buffered bytes: `Handshake.PhaseExactly`.
- A resume locator hint survives its text form exactly when no field contains a newline or ends in a carriage return
  and not all fields are empty: `ResumeLocator.RoundTripExactly`.
- The two send-queue budget tests differ for an empty payload on a queue already over its limit, a state neither queue
  reaches: `SendQueue.BudgetTestsAgree`.

## Model

| member | source | states |
|---|---|---|
| `WbFields.IsUuid` | tools/wb_worker/main.cpp:139-154 | the loop accepts exactly the 8-4-4-4-12 hexadecimal texts |
| `WbFields.IntTextRoundTrip` | tools/wb_dlq_replayer/main.cpp:188-192 | reading a written retry count gives it back, for every int |
| `WbFields.ParsesExactly` | tools/wb_worker/main.cpp:684-685 | a text is read as a number if and only if it is blanks, an optional sign and digits that denote it, within the range, whatever follows |
| `WbFields.WorkerColumns` | tools/wb_worker/main.cpp:648-695 | the last field of each name decides its column of the worker's row: type, the number the timestamp denotes or zero, each UUID if well formed, and the payload |
| `WbFields.WorkerDefaults` | tools/wb_worker/main.cpp:648-695 | missing fields give "unknown", zero, null UUIDs, and nothing in the payload |
| `WbFields.ReplayColumns` | tools/wb_dlq_replayer/main.cpp:214-243 | the first field of each name decides its column of the replayed row, UUID texts as they are; the queue's own names stay out of the payload |
| `WbFields.ReplayDefaults` | tools/wb_dlq_replayer/main.cpp:220-234 | missing fields give the same defaults |
| `WbFields.WrittenTimestamp` | tools/wb_worker/main.cpp:684-685 | a timestamp written in decimal is the one stored |
| `WbFields.QueueFieldsMean` | tools/wb_dlq_replayer/main.cpp:182-192 | event id and retry count are those of the first field of their name; a count that denotes no int is zero |
| `WbFields.QueueDefaults` | tools/wb_dlq_replayer/main.cpp:182-192 | without them the entry stands for its own id and has count zero |
| `WbFields.DlqKeepsEvent` | tools/wb_worker/main.cpp:702-714 | a dead-letter entry names its event, shows the same fields as the stream entry, whatever those are, and ends with the error |
| `WbFields.RequeueKeepsEvent` | tools/wb_dlq_replayer/main.cpp:290-296 | a requeued entry keeps the event id and the visible fields, carries the count plus one and ends with the error |
| `WbFields.DeadKeepsEvent` | tools/wb_dlq_replayer/main.cpp:264-274 | a buried entry keeps the event id and the visible fields and ends with the error |
| `WbFields.ReplayRowOfVisible` | tools/wb_dlq_replayer/main.cpp:214-243 | the replayed row depends only on the fields that dead-letter hops keep |
| `WbFields.EdgesDecideMaps` | tools/wb_dlq_replayer/main.cpp:75-80 | first-wins and last-wins maps are equal exactly when the first and last value of every field name are |
| `WbFields.ReplayAgreesExactly` | tools/wb_dlq_replayer/main.cpp:214-243 | the replayer's row is the worker's row if and only if the event is well formed: no conflicting repeats, no reserved names, UUID fields empty or well formed |
| `WbWorker.EstimateEntryBytes` | tools/wb_worker/main.cpp:156-162 | the loop adds up the id, the names and values, and four bytes per field |
| `WbWorker.FieldBytesAdd` | tools/wb_worker/main.cpp:156-162 | the estimate is additive over fields, and one field counts its name, its value and four bytes |
| `WbWorker.ProcessEntry` | tools/wb_worker/main.cpp:648-695 | the field loop computes the row with last-wins columns, normalised UUIDs and parsed timestamp |
| `WbWorker.BuildDlqFields` | tools/wb_worker/main.cpp:704-709 | the appends build the event id, the entry's fields in order and the error |
| `WbWorker.WbWorker.AckId` | tools/wb_worker/main.cpp:322-333 | an acknowledgement is a step of the worker's machine, with either outcome |
| `WbWorker.WbWorker.RejectEntry` | tools/wb_worker/main.cpp:568-587 | a failed entry is dead-lettered and acknowledged, or acknowledged by the ack_on_error choice, or left; the transaction goes on to the next entry |
| `WbWorker.WbWorker.InsertEntry` | tools/wb_worker/main.cpp:561-567 | an insert stages the entry's row under its savepoint, fails alone, or breaks the connection |
| `WbWorker.WbWorker.StoreEntry` | tools/wb_worker/main.cpp:560-588 | after entry i the transaction stands at i + 1 with the acknowledgements collected, or the attempt is over |
| `WbWorker.WbWorker.AckCommitted` | tools/wb_worker/main.cpp:597-599 | makes exactly one acknowledgement per stored id, in order, and nothing else |
| `WbWorker.WbWorker.FlushAttempt` | tools/wb_worker/main.cpp:553-610 | one attempt commits and then acknowledges exactly its stored ids, in order, or leaves everything for the next attempt; a closed connection stays closed |
| `WbWorker.WbWorker.Flush` | tools/wb_worker/main.cpp:524-646 | at most retry_max + 1 attempts, each a path of the machine; the buffer ends empty |
| `WbWorker.WbWorker.BufferOne` | tools/wb_worker/main.cpp:425-438 | an entry is buffered and the buffer flushed exactly when it reaches a limit; the byte count stays that of the buffer |
| `WbWorker.WbWorker.BufferEntries` | tools/wb_worker/main.cpp:425-438 | the flushed batches and the buffer together are the old buffer and the entries, in order, and every batch is full |
| `WbWorker.WbWorker.ClaimPending` | tools/wb_worker/main.cpp:474-500 | the cursor moves to the answer's next id if there is one, and exactly the ids reported deleted are acknowledged, in order |
| `WbWorker.WbWorker.ReclaimPending` | tools/wb_worker/main.cpp:466-516 | the flushed batches and the buffer together are the old buffer and the claimed entries, in order, and every batch is full |
| `WbWorker.WbWorker.LoopOnce` | tools/wb_worker/main.cpp:375-464 | one turn of the loop is a path of the worker's machine and keeps the buffer within its limits; without a database it does nothing, and a due flush after a read leaves the buffer empty |
| `WbReplayer.ToMap` | tools/wb_dlq_replayer/main.cpp:75-80 | the emplace loop builds the first-wins map |
| `WbReplayer.RetryDelay` | tools/wb_dlq_replayer/main.cpp:283-287 | the doubling loop gives b when b is at least 10000 and min(b * 2^count, 10000) otherwise |
| `WbReplayer.BackoffGrows` | tools/wb_dlq_replayer/main.cpp:283-288 | the sleep never shrinks with the count and a base below the ceiling stays below it |
| `WbReplayer.SleepDoubles` | tools/wb_dlq_replayer/main.cpp:283-288 | the sleep starts at the base and doubles with every count up to ten seconds |
| `WbReplayer.CopyFields` | tools/wb_dlq_replayer/main.cpp:290-294 | the copy has the event id first and drops the old retry count |
| `WbReplayer.BuildRow` | tools/wb_dlq_replayer/main.cpp:220-234 | the row built from the map is the replayed row |
| `WbReplayer.WbDlqReplayer.TryInsertToDb` | tools/wb_dlq_replayer/main.cpp:214-244 | a stored entry may be acknowledged, a broken one is left pending, a failed one goes to failure handling |
| `WbReplayer.WbDlqReplayer.MoveToDeadStream` | tools/wb_dlq_replayer/main.cpp:264-278 | an entry is settled exactly when the append to the dead stream succeeded |
| `WbReplayer.WbDlqReplayer.RetryLater` | tools/wb_dlq_replayer/main.cpp:280-308 | the original is acknowledged only after its successor was appended |
| `WbReplayer.WbDlqReplayer.HandleFailure` | tools/wb_dlq_replayer/main.cpp:246-262 | burial at the retry limit, a retry below it |
| `WbReplayer.WbDlqReplayer.ProcessEntry` | tools/wb_dlq_replayer/main.cpp:182-212 | handling an entry is a path of the replayer's machine |
| `WbReplayer.WbDlqReplayer.LoopOnce` | tools/wb_dlq_replayer/main.cpp:148-180 | the entries of a successful read are handled one after the other, all of them, each as a path of the machine; in run-once mode the loop ends on a failed, empty or short read |
| `WbHistories.CommittedAreAcked` | tools/wb_worker/main.cpp:590-599 | in every history of a worker, between a commit and the end of its flush it acknowledges exactly the ids inserted in that attempt, one by one and in order, and makes no other call |
| `WbHistories.CommitTriedAll` | tools/wb_worker/main.cpp:560-590 | a commit is asked for only after every buffered entry has been tried, once each and in order |
| `WbHistories.FlushEndsExactly` | tools/wb_worker/main.cpp:533-646 | a flush ends only after a commit or after retry_max + 1 attempts |
| `WbHistories.FailedEntryHandled` | tools/wb_worker/main.cpp:568-587 | after a failed insert the next calls are the dead-letter append, if there is a stream for it, and the acknowledgement exactly if the append returned or errors are acknowledged |
| `WbHistories.StoresWhenConnected` | tools/wb_worker/main.cpp:553-558 | a transaction begins only over a connection that has not been lost since it was opened |
| `WbHistories.ReplayStepsFollow` | tools/wb_dlq_replayer/main.cpp:182-308 | in every history of a replayer, an entry read is tried next, a failed one is requeued or buried next, and the acknowledgement of the entry read follows exactly its being stored, requeued or buried |
| `WbSettled.OwnRun` | tools/wb_worker/main.cpp:524-646 | in every run of the pipeline each worker is where its own calls since its start lead it, so what is proved of histories holds there |
| `WbSettled.AppliedAckIsFinal` | tools/wb_worker/main.cpp:322-333 | an entry whose acknowledgement was applied had been delivered and is never pending again, in any continuation |
| `WbSettled.CommittedLeavePending` | tools/wb_worker/main.cpp:590-599 | when a flush has committed, ended, and its acknowledgements were applied, every entry it inserted has its row and is out of the pending list for good |
| `WbSettled.AppliedDlqAckIsFinal` | tools/wb_dlq_replayer/main.cpp:197-199 | a dead-letter entry whose acknowledgement was applied is never again among the unacknowledged ones, in any continuation |
| `WbRetry.ChainShape` | tools/wb_dlq_replayer/main.cpp:246-308 | hop i of a chain of failures: a requeue with the sleep of the count plus i and the next count while the limit leaves one, then the burial; event id and visible fields stay |
| `WbRetry.RetryChain` | tools/wb_dlq_replayer/main.cpp:182-308 | in every run of the whole pipeline, however often events are dead-lettered and entries handed out, every copy a replayer appends stems from a worker's dead-letter entry and, after n hops from there, is hop n of that entry's chain, with that sleep |
| `WbRetry.RetryChainInOrder` | tools/wb_dlq_replayer/main.cpp:182-308 | when entries are handed out once, the copies of each dead-letter entry form one line: copy i is hop i of its chain, and nothing follows the burial |
| `WbRetry.RetryChainEnds` | tools/wb_dlq_replayer/main.cpp:182-308 | when moreover nothing of that dead-letter entry waits or is in work, it was requeued exactly as often as the limit leaves and then buried, if and only if no replayer let one of its copies go: stored, broken off, not appended, or restarted while at it |
| `WbRetry.LetterOfEvent` | tools/wb_worker/main.cpp:702-714 | the dead-letter entry at the root of every chain is the one a worker makes of an event that was produced |
| `WbRetry.FreshEventChain` | tools/wb_dlq_replayer/main.cpp:182-308 | in every run, for an event without a retry count of its own, the copies after n < retry_max - 1 hops are requeues with count n + 1 and the sleep for count n, and the one after that is the burial |
| `WbSystem.RunKeepsInv` | tools/wb_worker/main.cpp:524-646 | the system invariant holds in every state of every run of workers, replayers, crashes and redelivery |
| `WbSystem.NoLoss` | tools/wb_worker/main.cpp:493-615 | an event that left the pending list is stored, in an unacknowledged dead-letter entry, buried, dropped by choice, reported deleted, or lost to an append that did not append |
| `WbSystem.ExceptionsHaveCauses` | tools/wb_worker/main.cpp:574-586 | each exceptional end occurs only with its cause: a dishonest append, ack_on_error, a trimmed stream |
| `WbSystem.NothingLost` | tools/wb_worker/main.cpp:702-718 | with honest appends, ack_on_error off and no trimming, a delivered event is pending, stored, dead-lettered or buried |
| `WbSystem.RowsNeverChange` | tools/wb_worker/main.cpp:297-301 | a row once written is the same in every later state |
| `WbSystem.OneRightRow` | tools/wb_dlq_replayer/main.cpp:214-243 | however often an event is redelivered and replayed, its row is an accepted one computed from the event as produced, and is the worker's when the event is well formed or its replayed row is refused |
| `WbScenarios.UnappendedIsLost` | tools/wb_worker/main.cpp:713-714 | for every event there is a run with one dishonest append in which it is nowhere |
| `WbScenarios.DeadLetteredTwice` | tools/wb_worker/main.cpp:533-610 | for every event there is a run in which a failed commit and the next attempt leave two dead-letter entries of it |
| `WbScenarios.ReplayOne` | tools/wb_dlq_replayer/main.cpp:182-199 | for every event whose replayed row the database accepts there is a run in which the replayer, not the worker, stores it |
| `WbScenarios.RightRowExactly` | tools/wb_dlq_replayer/main.cpp:214-243 | every run that stores an event stores the worker's row if and only if the event is well formed or the database refuses its replayed row |
| `WbScenarios.RepeatedTypeReplaysWrong` | tools/wb_dlq_replayer/main.cpp:75-80 | a run that stores the first of two types where the worker would have stored the last |
| `WbScenarios.UncastableNeverReplayed` | tools/wb_dlq_replayer/main.cpp:236-242 | an event with a UUID text that does not cast is not well formed, yet no run stores a wrong row for it |
| `WbScenarios.WorkerRowCasts` | tools/wb_worker/main.cpp:672-682 | the worker's rows never fail on a UUID |
| `RepeatBackoff.NextDelay` | core/src/concurrent/task_scheduler.cpp:86-111 | a growing delay is at most ceiling plus jitter; one that does not grow lies within the jitter of the interval |
| `RepeatBackoff.GeometricBackoff` | core/src/concurrent/task_scheduler.cpp:86-111 | without jitter the delay after k runs is min(cap, interval * m^k) |
| `SchedulerProofs.ReachableInv` | core/src/concurrent/task_scheduler.cpp:133-395 | the invariant tying table, queues and history holds in every reachable state |
| `SchedulerTheorems.QueuesIndexTasks` | core/src/concurrent/task_scheduler.cpp:214-296 | between polls every task has exactly one queue entry of its current generation, under the due time of the plain map, and the table is that map's keys |
| `SchedulerTheorems.OneShotRunsOnce` | core/src/concurrent/task_scheduler.cpp:315-332 | a one-shot task runs at most once in any run |
| `SchedulerTheorems.NeverEarly` | core/src/concurrent/task_scheduler.cpp:298-395 | a task starts only while scheduled and not before its current due time |
| `SchedulerTheorems.RemovedStaysAway` | core/src/concurrent/task_scheduler.cpp:214-248 | a removed task id is never scheduled again |
| `SchedulerTheorems.CancelIsFinal` | core/src/concurrent/task_scheduler.cpp:214-248 | after a successful cancel by token or group no canceled task starts, in any continuation |
| `SchedulerTheorems.CancelDrops` | core/src/concurrent/task_scheduler.cpp:214-248 | the two cancels succeed on every table member by dropping exactly it or its group; an unknown token and group 0 change nothing |
| `SchedulerTheorems.GroupCancelReaches` | core/src/concurrent/task_scheduler.cpp:230-248 | in every continuation of the run a one-shot or repeating task is reached by a cancel of its group exactly while it is in the table, and by a cancel of another group never |
| `SchedulerTheorems.RescheduleForbids` | core/src/concurrent/task_scheduler.cpp:250-274 | a reschedule made outside the task's callback forbids a start before the new due time, until a selection or another request |
| `SchedulerTheorems.ScheduleForbids` | core/src/concurrent/task_scheduler.cpp:133-212 | a new task, one-shot or repeating, is due exactly its delay, with jitter, after it was scheduled, and in every continuation does not start before that unless a selection or a request has replaced it |
| `SchedulerTheorems.UpdateForbids` | core/src/concurrent/task_scheduler.cpp:276-296 | a new policy made outside the task's callback forbids a start before its interval, with jitter, has passed, until a selection or another request |
| `SchedulerTheorems.NextTurn` | core/src/concurrent/task_scheduler.cpp:315-372 | after a run or a rejection the task stays exactly when it repeats, is not canceled and did not ask to stop; it is then due its stored delay after that moment and does not start earlier in any continuation |
| `SchedulerTheorems.StoredDelay` | core/src/concurrent/task_scheduler.cpp:250-296 | a request on a repeating task sets the delay from which its backoff goes on |
| `SchedulerPoll.CollectSelects` | core/src/concurrent/task_scheduler.cpp:378-395 | an unlimited collect holds exactly one live entry of each task that the plain map says is due |
| `SchedulerPoll.UnlimitedPollIsExact` | core/src/concurrent/task_scheduler.cpp:298-376 | an unlimited poll with quiet callbacks runs or rejects exactly the due tasks, each once, in batch order |
| `SchedulerPoll.LimitedCollect` | core/src/concurrent/task_scheduler.cpp:378-395 | a limited poll takes at most its limit, the entries that have waited longest, and leaves the rest in order |
| `SchedulerPoll.ShutdownLeavesBatch` | core/src/concurrent/task_scheduler.cpp:49-57 | after a shutdown, between polls or inside one, exactly the live entries of the current batch still start or are rejected, in order, whatever is called meanwhile |
| `SchedulerPoll.ShutdownStillStarts` | core/src/concurrent/task_scheduler.cpp:298-376 | a run with two due tasks in which the first one's callback shuts down and the second still starts |
| `SchedulerPoll.RepeatBacksOff` | core/src/concurrent/task_scheduler.cpp:334-372 | in every reachable state the delay of an untouched repeating task is min(cap, interval * m^(runs + skips)) |
| `SchedulerPoll.JitterBounds` | core/src/concurrent/task_scheduler.cpp:75-111 | in every reachable state, with jitter J, the delay of an untouched repeating task is at most cap + J when it grows and lies in [interval, interval + J] when it does not |
| `TaskScheduler.TaskScheduler.ScheduleControlled` | core/src/concurrent/task_scheduler.cpp:133-160 | returns no handle exactly without a task or after shutdown; otherwise the machine's schedule step with a new id |
| `TaskScheduler.TaskScheduler.ScheduleEveryControlled` | core/src/concurrent/task_scheduler.cpp:184-212 | the same for a repeating task, refused also for an invalid policy |
| `TaskScheduler.TaskScheduler.CancelToken` | core/src/concurrent/task_scheduler.cpp:214-228 | succeeds exactly for table members and is the machine's cancel step |
| `TaskScheduler.TaskScheduler.MarkGroup` | core/src/concurrent/task_scheduler.cpp:236-247 | the walk marks and erases exactly the members of the group and counts them |
| `TaskScheduler.TaskScheduler.CancelGroupOf` | core/src/concurrent/task_scheduler.cpp:230-248 | cancels the whole group and returns its size |
| `TaskScheduler.TaskScheduler.RescheduleTask` | core/src/concurrent/task_scheduler.cpp:250-274 | succeeds exactly for table members and is the machine's reschedule step |
| `TaskScheduler.TaskScheduler.UpdateRepeatPolicy` | core/src/concurrent/task_scheduler.cpp:276-296 | succeeds exactly for repeating table members with a valid policy and is the machine's step |
| `TaskScheduler.TaskScheduler.ShutdownAll` | core/src/concurrent/task_scheduler.cpp:49-57 | closes once, at any time, and empties table and queues |
| `TaskScheduler.TaskScheduler.TopOfDelayed` | core/src/concurrent/task_scheduler.cpp:382-384 | the entry popped is one with the earliest due time |
| `TaskScheduler.TaskScheduler.PromoteDue` | core/src/concurrent/task_scheduler.cpp:382-389 | the loop pops exactly the due entries in due order and promotes the live ones |
| `TaskScheduler.TaskScheduler.TakeReady` | core/src/concurrent/task_scheduler.cpp:391-394 | the loop moves the longest allowed prefix of the ready queue |
| `TaskScheduler.TaskScheduler.CollectReady` | core/src/concurrent/task_scheduler.cpp:378-395 | the two loops are one collect step of the machine |
| `TaskScheduler.TaskScheduler.RejectEntry` | core/src/concurrent/task_scheduler.cpp:315-348 | a refused entry retires its one-shot task or queues the next try of a repeating one |
| `TaskScheduler.TaskScheduler.FinishEntry` | core/src/concurrent/task_scheduler.cpp:328-372 | after the callback the task is retired, left canceled, or queued again |
| `TaskScheduler.TaskScheduler.RunEntry` | core/src/concurrent/task_scheduler.cpp:315-372 | running an entry, with a callback that makes any calls, is a path of the machine and counts one run |
| `TaskScheduler.TaskScheduler.Poll` | core/src/concurrent/task_scheduler.cpp:298-376 | a poll is a path of the machine from one between-polls state to another and returns the number of callbacks run |
| `Packet.HeaderRoundTrip` | core/include/server/core/protocol/packet.hpp:61-100 | decoding an encoded header gives the header, whatever follows it |
| `Packet.HeaderBytesRoundTrip` | core/include/server/core/protocol/packet.hpp:84-100 | encoding a decoded header gives the bytes |
| `Packet.HeaderLayout` | core/include/server/core/protocol/packet.hpp:61-100 | where each field stands in the fourteen bytes of a header, as the number its bytes make with the most significant one first |
| `Packet.FramesAppend` | gateway/src/gateway_backend_frame_inspector.cpp:30-58 | framing a stream in two goes is framing it at once |
| `Packet.FramesUnique` | core/include/server/core/protocol/packet.hpp:13-21 | a list of frames followed by an unfinished rest is the only reading of its bytes |
| `Packet.FramesSplit` | gateway/src/gateway_backend_frame_inspector.cpp:30-58 | framing loses and adds nothing, every piece is a frame, and the rest holds none |
| `FrameInspector.ChunkingIndependent` | gateway/src/gateway_backend_frame_inspector.cpp:13-61 | for every cutting into pieces of at most 196596 bytes the pass-through bytes, callbacks and leftover are those of the whole stream |
| `FrameInspector.BackendReadsNeverDrop` | gateway/src/gateway_backend_connection.hpp:67 | with the backend's 8192-byte reads the 256 KiB clear never fires |
| `FrameInspector.ChunkingExactly` | gateway/src/gateway_backend_frame_inspector.cpp:22-25 | pieces read as the whole stream does if and only if no piece follows an unfinished frame it cannot stand beside |
| `FrameInspector.OverlongPieceDrops` | gateway/src/gateway_backend_frame_inspector.cpp:22-25 | a concrete overlong piece that changes the reading |
| `FrameInspector.Transparent` | gateway/src/gateway_backend_frame_inspector.cpp:46-58 | without a frame callback, or with one that consumes nothing, what was passed on and what is kept make up the stream |
| `FrameInspector.PassedExactly` | gateway/src/gateway_backend_frame_inspector.cpp:46-52 | the bytes passed on are exactly the frames that no frame callback consumes, in order |
| `FrameInspector.CallbacksSeeFrames` | gateway/src/gateway_backend_frame_inspector.cpp:44-49 | the frame callback sees exactly the frames of the stream in order, and the login callback exactly the bodies of its login responses |
| `FrameInspector.CalledInOrder` | gateway/src/gateway_backend_frame_inspector.cpp:42-47 | the callbacks of a stream, in order: for each frame the login callback, if it is a login response, then the frame callback |
| `FrameInspector.BackendInspector.ShowFrame` | gateway/src/gateway_backend_frame_inspector.cpp:44-53 | a frame is shown to the login callback, then the frame callback, and passed on unless consumed |
| `FrameInspector.BackendInspector.InspectBackendFrames` | gateway/src/gateway_backend_frame_inspector.cpp:13-61 | one call is one feed step, and its result is the bytes it passes on |
| `Handshake.PongMirrorsPing` | gateway/src/gateway_connection.cpp:32-47 | the PONG for a PING is a frame with the same flags, sequence number, timestamp and payload |
| `Handshake.MakeControlFrame` | gateway/src/gateway_connection.cpp:32-47 | the control frame decodes to the given type, the echoed fields and the payload |
| `Handshake.HandshakeIndependent` | gateway/src/gateway_connection.cpp:226-251 | for every cutting into reads of at most 32755 bytes phase, PONGs and backend bytes are those of the whole stream |
| `Handshake.ClientReadsIndependent` | core/include/server/core/net/connection.hpp:157 | so they are for the connection's 4096-byte reads |
| `Handshake.PhaseExactly` | gateway/src/gateway_connection.cpp:231-241 | the phase is the whole stream's, except that a read which does not fit closes the connection |
| `Handshake.LookMeans` | gateway/src/gateway_connection.cpp:295-344 | what the front of the buffer calls for, told by length and message id alone: login exactly for a complete MSG_LOGIN_REQ of allowed length, and when it is a PING, a PONG, refused or incomplete |
| `Handshake.BridgesExactly` | gateway/src/gateway_connection.cpp:288-429 | a connection reaches the bridge if and only if the login is accepted, every read fits, and the first frame after the leading run is a login request of allowed length; it waits exactly while that frame is incomplete |
| `Handshake.ClientBridgesExactly` | gateway/src/gateway_connection.cpp:226-251 | with the connection's own reads that is if and only if the login is accepted and that first frame is a login request of allowed length |
| `Handshake.TransparentHandshake` | gateway/src/gateway_connection.cpp:288-429 | once bridging, for every chunking, the login was accepted and the backend has exactly the client's bytes after the leading run of PING and PONG frames, starting with a complete MSG_LOGIN_REQ frame, and the PONGs of that run were sent |
| `Handshake.OnePongPerPing` | gateway/src/gateway_connection.cpp:314-327 | exactly one PONG per PING, in order, each the mirror of its own |
| `Handshake.GatewayConnection.TryFinishHandshake` | gateway/src/gateway_connection.cpp:288-429 | the loop does what the machine's handshake does |
| `Handshake.GatewayConnection.OnClientRead` | gateway/src/gateway_connection.cpp:226-251 | a read is one step of the machine; once bridging, every read is forwarded as it is |
| `WireScan.EncodeVarintValue` | gateway/src/gateway_connection.cpp:77-92 | every 64-bit value has a varint of at most ten bytes that reads back as it |
| `WireScan.ReadVarint` | gateway/src/gateway_connection.cpp:77-92 | succeeds exactly on a varint of at most ten bytes, stops behind it, and gives its value modulo 2^64 |
| `WireScan.VarintEndIs` | gateway/src/gateway_connection.cpp:80-91 | the varint at the front of a buffer is the only prefix that is one |
| `WireScan.SkipWireValue` | gateway/src/gateway_connection.cpp:94-111 | steps over a varint, or to the sum of offset and length modulo 2^64 when that is within the input, and fails otherwise |
| `WireScan.TakeTurn` | gateway/src/gateway_connection.cpp:116-133 | one turn of the loop ends with an answer, asks for bytes beyond the payload, or goes to the offset that the 64-bit sums give |
| `WireScan.ParseResumeToken` | gateway/src/gateway_connection.cpp:113-136 | any number of turns of the loop |
| `WireScan.EndsInTime` | gateway/src/gateway_connection.cpp:115-135 | the loop ends within as many turns as there are bytes, or never |
| `WireScan.ScanExactly` | gateway/src/gateway_connection.cpp:113-136 | the loop ends with the answer of the scan over unbounded sums if and only if no length met on the way passes the test by wrapping around, or the first that does leads back to an offset from which the loop ends without a token |
| `WireScan.LoopIsScanExactly` | gateway/src/gateway_connection.cpp:113-136 | the loop visits exactly the offsets of the scan and ends with its answer if and only if no length met on the scan's way wraps around |
| `WireScan.WrappedLoopsForever` | gateway/src/gateway_connection.cpp:100-107 | a message on which the loop never ends |
| `WireScan.WrappedMayEnd` | gateway/src/gateway_connection.cpp:100-107 | a message with a wrapped length on which the loop still ends as the scan does |
| `WireScan.ScanFindsToken` | gateway/src/gateway_connection.cpp:113-136 | for every well-formed message, with any choice of varints, the scan gives the first length-delimited field 6 unless a field of another wire type stands before it, and no length wraps around |
| `WireScan.LoopFindsToken` | gateway/src/gateway_connection.cpp:113-136 | so does the loop, in as many turns as there are bytes |
| `WireScan.PlainMessages` | gateway/src/gateway_connection.cpp:113-136 | with only varint and length-delimited fields that is the first field 6, or none when there is none |
| `WireScan.ScanInvertsEncoder` | gateway/src/gateway_connection.cpp:113-136 | the loop on an encoded message ends with the first bytes encoded as field 6, or none |
| `SendQueue.BudgetTestsAgree` | core/include/server/core/net/queue_budget.hpp:7-16 | both budget tests say that the new total would pass the limit; they differ exactly on an empty payload over the limit |
| `SendQueue.TakeIn` | core/src/net/connection.cpp:106-108 | taking a payload in at the back extends the accepted bytes and the total by it |
| `SendQueue.WriteOut` | core/src/net/connection.cpp:166-174 | writing the head out moves it from the queue to the written bytes and the total follows |
| `SendQueue.Connection.AsyncSend` | core/src/net/connection.cpp:83-116 | taken exactly when not stopped and within the limit; accounting, single write and order are kept |
| `SendQueue.Connection.HandleWrite` | core/src/net/connection.cpp:155-180 | a completed write pops its packet and starts the next; a failed one leaves a prefix written and stops |
| `SendQueue.Connection.Stop` | core/src/net/connection.cpp:46-65 | the first stop finalises, later ones change nothing |
| `SendQueue.Connection.FinalizeStop` | core/src/net/connection.cpp:67-77 | queue and count are emptied; what was written stays a prefix of what was accepted |
| `SendQueue.BackendConnection.Send` | gateway/src/gateway_backend_connection.cpp:212-286 | empty payloads are ignored, others taken exactly when open and within the limit; an overflow leaves the queue as it is and closes at once or later |
| `SendQueue.BackendConnection.OnConnected` | gateway/src/gateway_backend_connection.cpp:127-134 | what was queued before the connect is written first, from its head |
| `SendQueue.BackendConnection.CloseSocketForRetry` | gateway/src/gateway_backend_connection.cpp:144-155 | a retried connect keeps the queue |
| `SendQueue.BackendConnection.OnWritten` | gateway/src/gateway_backend_connection.cpp:306-336 | a completed write pops its packet and starts the next; after an error, with a prefix written, nothing more is written, even before the close that follows |
| `SendQueue.BackendConnection.Close` | gateway/src/gateway_backend_connection.cpp:366-388 | closing empties the queue once and keeps the order of what was written |
| `Bridge.ClientBridge.Read` | gateway/src/gateway_connection.cpp:226-251 | a client read goes through the handshake, and what it forwards goes to the end of the backend's queue exactly when that is open and has room; a refusal while another close is under way marks a hole |
| `Bridge.ClientBridge.EndToEnd` | gateway/src/gateway_connection.cpp:288-429 | at every moment the bytes that reached the backend's socket are the beginning of the client's stream after its leading run of PING and PONG frames, starting with an accepted MSG_LOGIN_REQ; after a read refused while another close is under way, those before the refused one |
| `Bridge.RefusalLeavesHole` | gateway/src/gateway_backend_connection.cpp:212-286 | for every login there is a connection on which such a refusal leaves a hole in the bytes written |
| `SessionDirectory.Agreement` | gateway/src/session_directory.cpp:32-98 | while keys stay and Redis answers, over every interleaving of any gateways: all answers for a client are one backend, ensure always answers, caches agree with Redis, the fallback is unreachable |
| `SessionDirectory.BoundedStaleness` | gateway/src/session_directory.cpp:36-57 | with releases, expiry and failures, a hit at t was bound in Redis in (t - ttl - delay, t], unless written by the fallback |
| `SessionDirectory.ReleaseFades` | gateway/src/session_directory.cpp:111-125 | when a release was applied at t and nobody binds the client to that backend again, no vouched hit on any gateway gives it later than t + ttl + delay, in every run |
| `SessionDirectory.BindingEndsExactly` | gateway/src/session_directory.cpp:111-125 | in every run a binding ends at a step if and only if its key expires there or a release of just that backend is applied |
| `SessionDirectory.BindingSurvives` | gateway/src/session_directory.cpp:111-125 | a binding survives every release of other backends and other clients, in any number |
| `SessionDirectory.KeyChangesExactly` | gateway/src/session_directory.cpp:82-125 | what a step does to one key of Redis: unbound only by expiry or its own release, bound only by a claim while unbound |
| `SessionDirectory.ReleaseForgotten` | gateway/src/session_directory.cpp:115-121 | after a release, and until something is written for the client there again, the releasing gateway's cache does not give that backend |
| `SessionDirectory.EntryChangesExactly` | gateway/src/session_directory.cpp:36-121 | what a step does to one cache entry: written after a Redis answer or by the fallback, dropped by its own release or when found expired, and otherwise kept |
| `SessionDirectory.CacheServes` | gateway/src/session_directory.cpp:36-57 | what was written for a client is found by every call on that gateway for the next ttl, unless overwritten or released there |
| `SessionDirectory.CallAlone` | gateway/src/session_directory.cpp:32-98 | undisturbed, a find or ensure returns the cached backend, else the bound one, else the one asked for, which it then binds; its answer is in the cache afterwards and no other key changes |
| `SessionDirectory.SessionDirectory.Find` | gateway/src/session_directory.cpp:32-57 | the lookup half of a call is a path of the machine |
| `SessionDirectory.SessionDirectory.FindBackend` | gateway/src/session_directory.cpp:32-57 | a find is a path of the machine and returns its answer |
| `SessionDirectory.SessionDirectory.EnsureBackend` | gateway/src/session_directory.cpp:63-98 | an ensure is a path of the machine, returns its answer, and answers exactly for non-empty arguments |
| `SessionDirectory.SessionDirectory.Reread` | gateway/src/session_directory.cpp:88-97 | a refused claim answers with what is there, or falls back |
| `SessionDirectory.SessionDirectory.ReleaseBackend` | gateway/src/session_directory.cpp:111-125 | a release is a path of the machine; its delete removes the client's key exactly when that holds the released backend, and empty arguments change nothing |
| `UdpBind.RetryDelayDoubles` | gateway/src/gateway_udp_ingress.cpp:116-122 | the delay starts at the base, doubles per attempt up to the eighth, and stays within the cap |
| `UdpBind.RunInv` | gateway/src/gateway_udp_ingress.cpp:187-360 | in every run the session's fields are what the history of tickets, binds, failures and fallbacks says |
| `UdpBind.OneEndpoint` | gateway/src/gateway_udp_ingress.cpp:332-343 | between two tickets all successful binds come from one endpoint with one ticket |
| `UdpBind.LatestTicketInTime` | gateway/src/gateway_udp_ingress.cpp:307-330 | every successful bind presents the latest, authentic ticket no later than its expiry, which is the ttl after its issue |
| `UdpBind.FallbackStopsForwarding` | gateway/src/gateway_udp_ingress.cpp:601-714 | once the fallback flag is set no datagram has frames forwarded before a new ticket or successful bind |
| `UdpBind.ForwardedExactly` | gateway/src/gateway_udp_ingress.cpp:601-703 | in every reachable state a datagram's frames are forwarded, up to the first that may not pass, if and only if it comes from the bound endpoint, the latest ticket selected RUDP, the session has not fallen back and the engine takes it |
| `UdpBind.BackoffSpacing` | gateway/src/gateway_udp_ingress.cpp:286-335 | the n-th failure since the last ticket or success comes no sooner after the first than the sum of the waits |
| `UdpBind.WaitsAtLeastBase` | gateway/src/gateway_configuration.cpp:316-338 | with the configured bounds n waits last between n bases and n caps |
| `UdpBind.AcceptedExactly` | gateway/src/gateway_udp_ingress.cpp:295-343 | in every reachable state a request is accepted if and only if it is not too early, presents the standing ticket in time, and no other endpoint is bound |
| `UdpBind.AnsweredExactly` | gateway/src/gateway_udp_ingress.cpp:286-335 | which answer a request gets in every reachable state: busy when too early, else unauthorized without the standing ticket in time, else forbidden from another endpoint than the bound one, else ok |
| `UdpBind.UdpIngress.IssueBindTicket` | gateway/src/gateway_udp_ingress.cpp:187-252 | issues exactly with a listening port, a known session and a computable token, and resets the session's bind state |
| `UdpBind.UdpIngress.ApplyBindRequest` | gateway/src/gateway_udp_ingress.cpp:260-360 | the checks in order give the answer and the new state; busy, unknown and malformed requests change nothing |
| `UdpBind.ForwardFrames` | gateway/src/gateway_udp_ingress.cpp:651-703 | forwards exactly the frames before the first that may not pass |
| `UdpBind.UdpIngress.FindBound` | gateway/src/gateway_udp_ingress.cpp:577-586 | finds a session bound to the endpoint, or none when there is none |
| `UdpBind.UdpIngress.ReceiveLocked` | gateway/src/gateway_udp_ingress.cpp:601-641 | the second look: the datagram is used exactly when the session is still bound to the endpoint and usable, otherwise the session falls back |
| `UdpBind.UdpIngress.MarkInvalidInner` | gateway/src/gateway_udp_ingress.cpp:705-714 | a refused frame makes the session fall back if it still exists |
| `UdpBind.UdpIngress.ReceiveRudp` | gateway/src/gateway_udp_ingress.cpp:572-723 | undisturbed between its locks, a datagram is the receive step of the session bound to its endpoint and, after a refused frame, its mark step |
| `BackendSelection.CollectWorlds` | gateway/src/gateway_routing_policy.cpp:68-81 | the worlds of the records, each once |
| `BackendSelection.WorldOfIs` | gateway/src/gateway_routing_policy.cpp:44-53 | a backend's world is that of its first tag naming one, and there is none exactly without such a tag |
| `BackendSelection.GetEach` | gateway/src/gateway_routing_policy.cpp:95-105 | single gets give one payload per key |
| `BackendSelection.FillIndex` | gateway/src/gateway_routing_policy.cpp:107-114 | each world gets its parsed policy or the default |
| `BackendSelection.LoadWorldPolicyIndex` | gateway/src/gateway_routing_policy.cpp:59-117 | the index maps each world to its stored policy, the same via the batched read or single gets |
| `BackendSelection.EvaluateWorldPolicy` | gateway/src/gateway_routing_policy.cpp:135-155 | a backend of a draining world is allowed exactly when it is the replacement owner, which is what a replacement match means; the world is that of its tags |
| `BackendSelection.CountLocalLoad` | gateway/src/gateway_routing_policy.cpp:439-448 | the loop counts this gateway's sessions per backend |
| `BackendSelection.LeastLoadedExactly` | gateway/src/gateway_routing_policy.cpp:472-484 | the candidates are exactly the records of the pool for which active sessions plus this gateway's own ones are least |
| `BackendSelection.BuildCandidates` | gateway/src/gateway_routing_policy.cpp:450-487 | the scan collects exactly the least-loaded records of the pool, in order |
| `BackendSelection.BestsAreBest` | gateway/src/gateway_routing_policy.cpp:478-484 | a record is a candidate exactly when it is in the pool and none there has less load |
| `BackendSelection.FindSticky` | gateway/src/gateway_routing_policy.cpp:415-417 | the first ready record with the bound id, and none exactly when there is none |
| `BackendSelection.SelectBestServer` | gateway/src/gateway_routing_policy.cpp:396-521 | sticky when usable; otherwise a least-loaded eligible record among those the selector matches, or among all when it matches none; none exactly when no record is eligible; a chosen record of a draining world is its replacement owner |
| `ResumeLocator.ParseSerialized` | gateway/src/gateway_routing_policy.cpp:157-166 | without newlines parsing gives the hint with one trailing carriage return dropped per field |
| `ResumeLocator.ParsedClean` | gateway/src/gateway_routing_policy.cpp:171-203 | no parsed field contains a newline |
| `ResumeLocator.RoundTripExactly` | gateway/src/gateway_routing_policy.cpp:157-214 | parsing a serialized hint returns it if and only if no field has a newline or a trailing carriage return and not all are empty |
| `ResumeLocator.ReadLine` | gateway/src/gateway_routing_policy.cpp:175-197 | a line sets the field it names, up to its first separator |
| `ResumeLocator.ParseResumeLocatorHint` | gateway/src/gateway_routing_policy.cpp:168-214 | the loop applies the lines in order and refuses a hint with nothing in it |

## Left out

- Sockets, strands, timers, DNS, Redis, PostgreSQL and OpenSSL themselves: their calls are steps with success and failure outcomes; HMAC and SHA-256 are uninterpreted or absent.
- Liveness: a flush after a broken connection does not reconnect, and dead-letter entries left pending after a broken connection are not reclaimed, so entries are only proved to stay where they are.
- Redelivery is over-approximated: a reclaim may hand out any pending entry and a replayer may read any unacknowledged dead-letter entry, whatever the idle times and consumers.
- Metrics, logging, tracing, the admin HTTP server and configuration parsing beyond the bounds that the proofs use.
- `JobQueue`, `ThreadManager`, `MemoryPool`, `AppHost`, `EngineRuntime` and the RUDP engine: plain containers and flags, or code that the modelled handlers only ask for an answer.
- `refresh_backend` and the mode of the session directory without Redis: both write the cache without a confirming Redis value.
- Retry counts, the retry budget and the connect timer of `BackendConnection`, and a timeout that races a completed connect.
- Nested polls, and validators that call back into the scheduler.
- RetryLater: a stored count of INT_MAX, whose increment is undefined in the source, is added to without wrapping; a retry limit within int never requeues from there.
- NextDelay: the product of delay and multiplier is exact, where the source rounds a long double and converts it to 64 bits.
- TaskScheduler: 64-bit generations and task ids do not wrap; records are named by id instead of shared pointers; the heap is a sequence popped at an earliest entry, equal due times in any order.
- ReadVarint: the bitwise or of disjoint bit groups is written as a sum modulo 2^64.
- ParseResumeToken: takes the number of turns to make, because the loop need not end; a string asked for beyond the payload is an outcome of its own, whatever the allocation then does.
- TryFinishHandshake: the login checks (payload strings, authenticator, anonymous policy, backend creation) are one yes-or-no answer per connection, and the UDP ticket frame sent to the client on success is not among the frames sent.
- OnClientRead: a read that completed before a stop from another thread and is delivered after it is not modelled; a stopped connection reads no more.
- InspectBackendFrames: what the frame callback answers is an arbitrary function of the frame's number on the connection.
- AsyncSend: the half before the strand only tests the stop flag; payloads are ordered as their handlers run. Null buffers, which the source never queues, are left out.
- Close: the flag and the clearing under the lock are one step.
- EndToEnd: frames that the UDP side puts into the same queue are not part of the client's stream.
- RetryChainInOrder: the consumer group hands out a dead-letter entry once, as its reads of new entries do; RetryChain does without that.
- RetryChainEnds: the same.
- Accepts: what the database refuses besides UUID texts that do not cast is an arbitrary predicate on rows, and an insert of an accepted row may still fail.
- Others: other threads, Redis expiry and the clock are any change that leaves the calling thread where it is; OthersBriefly adds the bound on the time between a Redis answer and the cache write.
- ReceiveRudp: the inner frames' opcode and transport checks are one answer per frame; nothing comes between the three locks of the method, while the machine lets other steps come there.
- SelectBestServer: the match of a record against a resume locator's selector is an arbitrary predicate, and the hash of the client id or the round-robin counter is an arbitrary number.
- LoadWorldPolicyIndex: the parser of a stored policy is an arbitrary function.
