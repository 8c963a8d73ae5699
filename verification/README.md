# Zerobus SDKs: verified models

This project models, in Dafny, the parts of the Zerobus ingestion SDKs whose correctness rests on
state, interleaving, ownership or exact encodings, and proves what they promise. One module per
file; the whole project is checked with `dafny verify dfyconfig.toml`.

| file | what it models |
|---|---|
| `IngestCore.dfy`, `IngestProperties.dfy`, `IngestCallbacks.dfy`, `IngestProgress.dfy` | the ingestion core of the pure-Go SDK: offsets, sender, receiver, watermark, reconnect with replay, callbacks, hand-back of unacknowledged records, for any interleaving and an arbitrary server |
| `IngestBuffer.dfy` | the core's bounded buffer with its waiting list, as values and in place |
| `ArrowReplay.dfy`, `ArrowProgress.dfy` | the Rust core's Arrow streams: acknowledgment by rows, replay of batches cut to their unacknowledged rows, calls dropped half-way |
| `StreamLifetime.dfy`, `StreamSafety.dfy`, `StreamStaleSet.dfy`, `StreamTrace.dfy`, `StreamLineage.dfy` | the .NET stream's lifetime protocol at the granularity of single interlocked operations, when it is safe and exactly when it is not, what every call has done when it returns, and chains of recreated streams |
| `SdkRegistry.dfy`, `SdkCalls.dfy` | creates, stream closes and SDK closes of the pure-Go SDK racing over the stream registry |
| `JsonIngest.dfy` | JSON ingestion on a proto stream: overflow-safe sum, all-or-nothing conversion, the conversion gate |
| `StreamHandle.dfy` | ownership of native handles and error messages by the C++ wrappers |
| `HeadersTrampoline.dfy` | the C++ headers callback under arbitrary allocation failures |
| `BatchMarshal.dfy` | batches across the C interface, both ways, for C++ and Go |
| `ConfigEncoding.dfy` | option structs across the C interface, for C++ and Go, against Rust's decoding |
| `JsonExample.dfy` | the Java example's JSON printer and parser |
| `Common.dfy` | bytes, options and addresses, shared by the others |

Concurrent protocols are state machines: a state, an `Action` or `Op` per atomic step, and a partial
`Step`; a run is a sequence of actions, so every interleaving of any number of threads is one of them.
Invariants are proved for each step and carried over runs, and the main results speak of reachable
states. What a run was given is computed from its actions alone, what a call did is the list of its steps,
and results that a run can go on to its end exclude a step that never happens. Code that fills arrays, moves handles or runs loops is written as methods and classes proved
against functions on values.

Some results say where the code does less than its documentation, always with the exact condition:

- .NET: `EndAsyncOperation` decrements and then sets the event. A caller that makes one asynchronous
  call at a time is safe (`StreamSafety.OneAtATimeIsSafe`), and so is every run in which no set comes
  late (`NoUseAfterFree`). In general a run frees a handle under an outstanding call
  (`StreamStaleSet.SplitEndIsUnsafe`): from a state with a late set still to come such a free can follow
  exactly when the stream is not yet disposed or some call is past its look at `_disposed`
  (`StaleSetIsFatalExactly`).
- .NET: `RecreateStream` makes the replacement before `Recreate` claims the old wrapper. A native stream
  is left without an owner exactly when its `Recreate` loses the compare-and-swap
  (`StreamLineage.OrphanedExactly`), which does happen (`RecreateCanOrphan`), and not if no other
  disposal or recreation is called on a wrapper being recreated (`UndisturbedRecreateKeepsAll`).
- pure Go: an honest server's ack is refused exactly when it is for the one message whose send failed
  (`IngestProperties.HonestAckRefusedIff`). One that is held until its send returns is lost exactly when
  the send fails, or the receiver first ends on an error of its own or on a response that is malformed
  or acknowledges too much (`HeldAckIsLostExactly`). All of it happens (`HonestAckCanBeRefused`,
  `HonestAckCanBeDropped`, `HeldAckCanBeLost`).
- pure Go: a second `SDK.Close` returns at once while streams may still be up
  (`SdkRegistry.SecondCloseReturnsEarly`); none is exactly when the call that closes is past its wait or
  has nothing left to wait for (`ReturnedCloseMeansDownExactly`).
- Rust Arrow: a call to `ingest_batch` numbers its batch, queues it and hands it over, and its future may
  be dropped in between. Dropped before it has queued, it leaves a gap in the row numbers, and the next
  batch is acknowledged in full and replayed all the same (`ArrowReplay.DroppedCallCanRepeatRows`).
  Dropped after that, the next batch overtakes it and an acknowledgment of that one counts for both
  (`DroppedCallCanLoseRows`). Either kind can lose or repeat rows exactly when a later batch can be handed
  over on the same connection (`DropIsFatalExactly`); in runs without such a drop nothing is lost or
  repeated over any chain of reconnects (`AcknowledgedThenLeftIsTaken`). Where it does neither, a drop may
  still leave flush waiting for an offset that no batch has (`FlushCanWaitInVain`); flush never returns with
  a row unacknowledged (`FlushReturnsExactly`).
- Rust: the array of unacknowledged records is freed as a Vec that is exactly full, so it is given back
  as it was allocated exactly when it was collected without spare room (`BatchMarshal.GetUnackedRecords`).
- C++ headers: a provider's error is lost, and read as "no headers", exactly when both the message
  and the empty fallback fail to allocate (`HeadersTrampoline.Trampoline`).
- Go: an empty record crosses as a null pointer, which Rust's slices do not allow
  (`BatchMarshal.GoBatchIsFitExactly`), a JSON record with a NUL arrives cut short
  (`GoJsonReadsBackExactly`), `Recovery = false` survives only beside another recovery setting
  (`ConfigEncoding.RecoveryOffSurvivesExactly`), and a pause of 2^63 ms or more becomes "no limit"
  (`PauseSurvivesExactly`).
- Java example: the round trip holds exactly for maps with `Good` entries (`JsonExample.RoundTripExactly`).

## Model

| member | source | states |
|---|---|---|
| IngestCore.AckedCountExact | purego/internal/stream/buffer.go:255-276 | on a contiguous in-flight list, discarding through an offset inside it removes exactly the entries up to that offset |
| IngestCore.LogicalAckExact | purego/internal/stream/core.go:1127-1151 | a logical ack inside the in-flight range is never refused, moves the watermark to it, discards exactly the offsets from the old watermark on, and ends a pause exactly when it leaves nothing in flight |
| IngestCore.PhysicalAckExact | purego/internal/stream/core.go:1152-1175 | a physical ack recorded in the table is never refused and acknowledges through the logical offset that was sent under it; the receiver's table is advanced unless the ack ends a pause |
| IngestCore.EventApplies | purego/internal/stream/core.go:1176-1206 | handling a send report is never refused, and a completion releases exactly the ack held for it |
| IngestCore.StepKeepsInv | purego/internal/stream/core.go:754-1351 | every step of every goroutine and of an arbitrary server keeps the invariant: retained, in-flight and queued records are the run of ingested records above the watermark, the receiver's table matches what was sent, and the wire is that run from the connection's base |
| IngestProperties.RunKeepsInv | purego/internal/stream/supervisor.go:17-178 | the invariant holds in every run from the start, across any number of broken connections |
| IngestProperties.RunIsMonotone | purego/internal/stream/core.go:192-200 | the watermark and the ingested history never go back |
| IngestProperties.IngestedIsAdmitted | purego/internal/stream/core.go:531-556 | in every run record o is what the o-th successful ingest call was given: the history is read off the run's actions, not off its steps |
| IngestProperties.FlushMeansDurable | purego/internal/stream/core.go:564-588 | when Flush returns success against a server that acknowledges only what it holds, every record that was given to the stream before the call is durably held, as it was given, whatever broke in between |
| IngestProperties.HonestAckRefusedIff | purego/internal/stream/core.go:1152-1164 | such a server's ack is treated as a protocol error if and only if it is for the message whose Send failed on this connection |
| IngestProperties.HonestAckCanBeRefused | purego/internal/stream/core.go:1152-1164 | an honest run in which that happens |
| IngestProperties.HeldAckIsAppliedExactly | purego/internal/stream/core.go:1176-1206 | when the receiver handles the completion of a send whose ack it holds, the ack is applied in full if the send reported no error, and otherwise dropped with nothing changed |
| IngestProperties.HeldAckIsLostExactly | purego/internal/stream/core.go:1176-1233 | over any run an ack is held up to some step; that step moves the watermark to it, or is a failed completion, the end of the receiver on its own error, or a response that is malformed or acknowledges too much, and exactly then the ack is lost |
| IngestProperties.HonestAcksDropNothing | purego/internal/stream/core.go:1318-1343 | an honest server's further acks are never among these |
| IngestProperties.HeldAckCanBeLost | purego/internal/stream/core.go:1217-1234 | an honest run in which the receiver ends on an error while it holds the ack of a stored record, whose send then reports no error, and the record is queued again |
| IngestProperties.HonestAckCanBeDropped | purego/internal/stream/core.go:1176-1206 | an honest run in which a held ack of a durable record is about to be dropped |
| IngestProperties.ChannelsNeverBlock | purego/internal/stream/core.go:971-1035 | the sender's reports and the receiver's turn token always find room, and a completion is never out of sequence |
| IngestProperties.ReconnectReplaysUnacked | purego/internal/stream/core.go:785-800 | a reconnect queues again all unacknowledged records and nothing else, in order, and the new connection's offsets start at the first of them |
| IngestProperties.WireInOrder | purego/internal/stream/core.go:971-1035 | on every connection physical offset k carries the record with logical offset base + k, as it was given to the stream |
| IngestProperties.UnackedIsExactAndStable | purego/internal/stream/core.go:610-628 | after the end, GetUnackedBatches gives exactly the records given to the stream and never acknowledged, in order, and gives the same at every later call |
| IngestProperties.DoneIsFinal | purego/internal/stream/supervisor.go:17-44 | after the supervisor has ended, nothing is admitted or acknowledged any more |
| IngestCallbacks.EnqueueAcksAdds | purego/internal/stream/callback.go:87-107 | queueing an ack range, merged into the tail or not, adds exactly its offsets at the end of what will be invoked |
| IngestCallbacks.EnqueueErrorsAdds | purego/internal/stream/callback.go:109-121 | queueing an error range adds exactly its offsets, as errors, at the end |
| IngestCallbacks.OneCallbackPerOffset | purego/internal/stream/callback.go:46-85 | once the stream is done and the worker idle, the callback has run exactly once for each record given to the stream, in order, OnAck for the acknowledged ones and then OnError for the rest |
| IngestCallbacks.CallsAreThePrefix | purego/internal/stream/callback.go:46-85 | at every moment the invocations so far are the first of OnAck up to the watermark and then OnError for what was drained: none early, late or twice |
| IngestCallbacks.OnAckMeansDurable | purego/internal/stream/callback.go:46-85 | against a server that acknowledges only what it holds, a record whose OnAck has run is durably stored, as it was given to the stream |
| IngestProgress.EverythingCanBeAcknowledged | purego/internal/stream/core.go:754-1351 | from every reachable state, while the supervisor runs, an honest run leads to all records acknowledged: no state is stuck |
| IngestProgress.StreamCanEnd | purego/internal/stream/supervisor.go:17-178 | and a run leads to the end, with every callback made |
| IngestProgress.CloseCanEnd | purego/internal/stream/supervisor.go:17-44 | once the stream is closing, cancelling the supervisor leads to the end by itself |
| IngestProgress.TeardownWaitsForSend | purego/internal/stream/core.go:971-1035 | in every run no connection is torn down while its sender is inside Send |
| IngestProgress.AdmissionIsExact | purego/internal/stream/core.go:531-545 | a record is refused if and only if the stream is closing, its buffer closed, or all offsets are used up |
| IngestProgress.PauseEndsWhenIdle | purego/internal/stream/core.go:1127-1151 | a paused connection with nothing in flight has ended |
| IngestProgress.PauseTakesHold | purego/internal/stream/core.go:1318-1343 | a connection is paused by a pause of the server and by nothing else, and stays so |
| IngestProgress.WaitersLearnOfTheEnd | purego/internal/stream/supervisor.go:17-44 | in every run those who wait for the watermark are told of the end if and only if the supervisor has given up |
| IngestBuffer.GrantIsFifo | purego/internal/stream/buffer.go:151-165 | granting capacity serves exactly a prefix of the waiters |
| IngestBuffer.GrantKeepsGood | purego/internal/stream/buffer.go:151-165 | after granting, whoever is first in line really does not fit, and nothing but the accounting has changed |
| IngestBuffer.RunKeepsGood | purego/internal/stream/buffer.go:99-346 | every sequence of calls keeps the accounts exact (each used slot and byte has one owner), within both limits, and loses no wake-up |
| IngestBuffer.NewBufferIsGood | purego/internal/stream/buffer.go:79-97 | so it does from a new buffer, whatever limits it was given |
| IngestBuffer.WaitersAreWaitingForSomeone | purego/internal/stream/buffer.go:99-145 | a caller waits only while some entry or reservation occupies capacity |
| IngestBuffer.WaiterWasServed | purego/internal/stream/buffer.go:99-145 | a caller that keeps waiting while everything that occupied capacity is given back has been let in on the way |
| IngestBuffer.NoOvertaking | purego/internal/stream/buffer.go:99-145 | no call lets a later waiter in before an earlier one that has not given up |
| IngestBuffer.DiscardCommutesWithNext | purego/internal/stream/core.go:1133-1141 | taking the next entry and discarding an acknowledged prefix commute, so looking up the highest in-flight offset and discarding may be one step |
| IngestBuffer.ListsRefineRecords | purego/internal/stream/buffer.go:188-346 | append, next, requeue and drain do to the two lists exactly what the core's steps say |
| IngestBuffer.GrantsRefineRecords | purego/internal/stream/buffer.go:255-276 | so do discarding and cancelling, whoever they let in |
| IngestBuffer.NextIsTheSenders | purego/internal/stream/buffer.go:211-253 | what next hands out is the item the core's sender gets, and the one that goes in flight |
| IngestBuffer.GivenBackIsGone | purego/internal/stream/buffer.go:177-186 | a reservation given back is gone and no other is touched |
| IngestBuffer.CancelledIsGone | purego/internal/stream/buffer.go:118-144 | a caller that gave up neither waits nor holds anything |
| IngestBuffer.Buffer.constructor | purego/internal/stream/buffer.go:79-97 | an empty sound buffer with the defaults for non-positive limits |
| IngestBuffer.Buffer.GrantWaiters | purego/internal/stream/buffer.go:151-165 | the in-place loop leaves the buffer as the specification of granting says |
| IngestBuffer.Buffer.ReserveCapacity | purego/internal/stream/buffer.go:99-145 | refuses a cancelled context, a record too large and a closed buffer, in this order, grants at once only when nobody waits and both limits allow, and else queues the caller; each outcome is given with its condition and what it changes |
| IngestBuffer.Buffer.CancelReserve | purego/internal/stream/buffer.go:118-144 | a caller that gives up is neither waiting nor holding a reservation any more, others are let in, and the lists do not change |
| IngestBuffer.Buffer.ReleaseCapacity | purego/internal/stream/buffer.go:177-186 | the reservation is gone, its slot and bytes are free again before waiters are let in, unless the accounts were wiped by a drain |
| IngestBuffer.Buffer.AppendItem | purego/internal/stream/buffer.go:188-209 | turns a reservation into the last queued entry, with the weight reserved for it, or gives it back when the buffer was closed meanwhile |
| IngestBuffer.Buffer.NextItem | purego/internal/stream/buffer.go:211-253 | one look at the buffer: the cancelled, closed and nothing-yet outcomes change nothing, and otherwise the item handed out is the head of the queue, which is now the last one in flight |
| IngestBuffer.Buffer.DiscardThrough | purego/internal/stream/buffer.go:255-276 | evicts the acknowledged prefix, returns its capacity, lets waiters in and reports the range |
| IngestBuffer.Buffer.RequeueAll | purego/internal/stream/buffer.go:278-299 | puts the in-flight entries back in front of the queue, in order |
| IngestBuffer.Buffer.DrainAll | purego/internal/stream/buffer.go:317-334 | hands out in-flight then queued entries and closes the buffer with its accounts wiped |
| ArrowReplay.RebuildPending | rust/sdk/src/stream/arrow/batch.rs:197-235 | the loop gives each batch cut to its unacknowledged rows, renumbered from 0, what is sent again, and their number |
| ArrowReplay.RetainUnacked | rust/sdk/src/stream/arrow/acks.rs:149-161 | the retain with its running maximum gives what is kept and the highest offset dropped |
| ArrowReplay.StepKeepsInv | rust/sdk/src/stream/arrow/supervisor.rs:399-510 | every step of a call, of acknowledgments, rotation, recovery and close keeps: what is pending is the rest of the wire and what was not handed over, in order, without a gap |
| ArrowReplay.RunKeepsInv | rust/sdk/src/stream/arrow/supervisor.rs:91-319 | so does every run in which no call is dropped between its steps while the connection takes further batches |
| ArrowReplay.AcknowledgedThenLeftIsTaken | rust/sdk/src/stream/arrow/batch.rs:104-137 | in such runs, over any chain of reconnects with partial acknowledgments, the rows acknowledged followed by those still to replay or hand back are exactly the rows taken, in order |
| ArrowReplay.ReplayIsExact | rust/sdk/src/stream/arrow/supervisor.rs:399-470 | a reconnect replays exactly the rows not acknowledged, and no batch loses its place or its offset |
| ArrowReplay.WireIsTakenRun | rust/sdk/src/stream/arrow/supervisor.rs:399-470 | every connection carries the taken rows in order without a gap, from the first one not acknowledged before it |
| ArrowReplay.AckIsExact | rust/sdk/src/stream/arrow/acks.rs:127-183 | an acknowledgment is refused, changing nothing, if and only if it is for rows never handed to this connection; otherwise the watermark becomes the higher of the two |
| ArrowReplay.OffsetMeansAcknowledged | rust/sdk/src/stream/arrow/acks.rs:131-183 | the published offset has reached that of a batch if and only if all rows up to its last are acknowledged |
| ArrowReplay.UnackedIsExactAndStable | rust/sdk/src/stream/arrow/mod.rs:946-1004 | the batches handed back after closure, even one that was interrupted, are exactly the rows never acknowledged, and the same at every later call |
| ArrowReplay.CallFindsSender | rust/sdk/src/stream/arrow/acks.rs:197-212 | a call that has queued its batch finds the sender attached unless the stream is being torn down |
| ArrowReplay.DropIsFatalExactly | rust/sdk/src/stream/arrow/mod.rs:507-603 | if a call is dropped after it has numbered or queued its batch, a run exists after which acknowledged and left rows are no longer the taken ones, if and only if a later batch can be handed over on this connection |
| ArrowReplay.RenumberedIsRepeated | rust/sdk/src/stream/arrow/mod.rs:518-537 | dropped between numbering and queueing: the next batch, acknowledged in full, is still left, to be replayed or handed back |
| ArrowReplay.OvertakenIsLost | rust/sdk/src/stream/arrow/mod.rs:526-600 | dropped between queueing and handing over: the acknowledgment of the next batch counts for it |
| ArrowReplay.DroppedCallCanLoseRows | rust/sdk/src/stream/arrow/mod.rs:507-603 | a run from the start in which offset 0 is published as acknowledged and its row was never handed over |
| ArrowReplay.DroppedCallCanRepeatRows | rust/sdk/src/stream/arrow/mod.rs:518-537 | a run from the start in which a row that was sent and acknowledged is replayed and its offset not published |
| ArrowReplay.FlushReturnsExactly | rust/sdk/src/stream/arrow/mod.rs:761-789 | in every careful run flush returns if and only if no offset was handed out, or the last one went to a batch that was taken and every row taken is acknowledged; so never with a row unacknowledged |
| ArrowReplay.FlushCanWaitInVain | rust/sdk/src/stream/arrow/mod.rs:761-789 | a run without a harmful drop, nothing outstanding, after which flush waits for an offset that never comes |
| ArrowProgress.TakenIsGiven | rust/sdk/src/stream/arrow/mod.rs:507-603 | in every run the batches taken are those its calls queued, in order, less those whose send failed with recovery off |
| ArrowProgress.PauseStopsSending | rust/sdk/src/stream/arrow/acks.rs:203-230 | after a rotation's pause, a half-close or the start of recovery nothing more is handed to the connection until a replacement takes over |
| ArrowProgress.NoRecoveryNoReplay | rust/sdk/src/stream/arrow/supervisor.rs:91-319 | with recovery off the first connection is the only one and nothing is replayed |
| ArrowProgress.EverythingCanBeAcknowledged | rust/sdk/src/stream/arrow/supervisor.rs:328-470 | from every careful state of a stream that may recover and is not closing, a run leads to every row taken being acknowledged, giving up no batch |
| ArrowProgress.StreamCanClose | rust/sdk/src/stream/arrow/supervisor.rs:474-520 | and from every careful state one leads to a closed stream that hands back exactly what is unacknowledged |
| ArrowProgress.BrokenSendIsReplayed | rust/sdk/src/stream/arrow/mod.rs:560-603 | a run in which a call finds the connection broken and its batch is replayed on the next one |
| ArrowProgress.TornCallFindsNoSender | rust/sdk/src/stream/arrow/mod.rs:544-603 | a run in which a call finds the sender gone, in a teardown |
| StreamLifetime.StepKeepsInv | dotnet/src/Zerobus/ZerobusStream.cs:297-563 | every single step of every call keeps: lock ownership, one retirer, the exact count, and an unset event only while someone will set it |
| StreamLifetime.FreedAtMostOnce | dotnet/src/Zerobus/ZerobusStream.cs:304-419 | in every run the handle is freed at most once, exactly once if any retirement completes, whichever call wins the compare-and-swap |
| StreamLifetime.CounterIsExact | dotnet/src/Zerobus/ZerobusStream.cs:477-563 | the in-flight counter is the number of operations begun and not ended |
| StreamTrace.EveryCallKeepsToItsPath | dotnet/src/Zerobus/ZerobusStream.cs:274-565 | in every run the steps each call has taken, whatever the others do, are the beginning of the one path given by what it found (disposed, first or last in flight) and what the native library answered |
| StreamTrace.SyncMakesItsCallExactly | dotnet/src/Zerobus/ZerobusStream.cs:430-441 | a synchronous call that returned made its native call if and only if it found the stream undisposed under the lock; the pointer cannot go away in between |
| StreamTrace.CloseClosesExactly | dotnet/src/Zerobus/ZerobusStream.cs:274-282 | a Close that returned waited for the operations in flight and then made its native calls if and only if it found the stream undisposed |
| StreamTrace.AsyncMakesItsCallExactly | dotnet/src/Zerobus/ZerobusStream.cs:477-531 | an asynchronous call that ended had its native operation, counted, if and only if it found the stream undisposed |
| StreamTrace.RetiringFreesExactly | dotnet/src/Zerobus/ZerobusStream.cs:304-372 | a disposal or finalizer that returned freed the handle if and only if it came first, and only once nothing was in flight |
| StreamTrace.DisposalClosesExactly | dotnet/src/Zerobus/ZerobusStream.cs:304-372 | before the free a disposal that came first asked whether the stream is closed, and closed it if and only if the answer was no |
| StreamTrace.FinalizerOnlyFrees | dotnet/src/Zerobus/ZerobusStream.cs:343-384 | the finalizer never asks and never closes |
| StreamTrace.RecreateMakesExactly | dotnet/src/Zerobus/ZerobusSdk.cs:516-523 | RecreateStream asks for a replacement if and only if it found the stream undisposed, and retires it if and only if it was given one |
| StreamTrace.RecreateOnlyFrees | dotnet/src/Zerobus/ZerobusStream.cs:404-419 | then it frees the old handle unless another call came first, and never closes it |
| StreamTrace.NobodyIsStuck | dotnet/src/Zerobus/ZerobusStream.cs:462-475 | in every reachable state in which some call has not returned, some call can take its next step |
| StreamTrace.CallsAreShort | dotnet/src/Zerobus/ZerobusStream.cs:274-565 | and no call takes more than eleven |
| StreamSafety.NoUseAfterFree | dotnet/src/Zerobus/ZerobusStream.cs:297-372 | in no interleaving without a late set does a native call run, or stay outstanding, on a freed handle |
| StreamSafety.OneAtATimeIsSafe | dotnet/src/Zerobus/ZerobusStream.cs:509-537 | that holds for every caller that starts an asynchronous call only when none is running, whatever else runs beside it |
| StreamSafety.WriterSeesNoOperation | dotnet/src/Zerobus/ZerobusStream.cs:469-474 | a writer that has passed the drained wait sees no operation in flight and none begins while it holds the lock |
| StreamSafety.CloseIsExclusive | dotnet/src/Zerobus/ZerobusStream.cs:274-282 | the native close inside Close overlaps no other native call, not even a detached close |
| StreamSafety.AtomicEndIsClean | dotnet/src/Zerobus/ZerobusStream.cs:533-537 | if decrement and set are never separated, no set comes late |
| StreamSafety.AtomicEndIsSafe | dotnet/src/Zerobus/ZerobusStream.cs:533-537 | so every such run is safe |
| StreamStaleSet.StaleSetIsFatalExactly | dotnet/src/Zerobus/ZerobusStream.cs:509-537 | from a reachable state with a set still to come beside counted operations a use after free is reachable if and only if the stream is undisposed or some call can still begin its native operation |
| StreamStaleSet.SplitEndIsUnsafe | dotnet/src/Zerobus/ZerobusStream.cs:509-537 | a use after free is reachable from the start, with two overlapping calls and a Dispose |
| StreamSafety.WaitingMakesProgress | dotnet/src/Zerobus/ZerobusStream.cs:469-474 | at the finest granularity, while a writer waits every step of an operation, its end or its signal lowers the measure and no step raises it |
| StreamSafety.WaiterIsNeverStuck | dotnet/src/Zerobus/ZerobusStream.cs:469-474 | a waiting writer can go on, or some thread that will let it go on can take its next step |
| StreamLineage.OnlyNewestOwns | dotnet/src/Zerobus/ZerobusStream.cs:404-419 | over any chain of recreations only the newest wrapper owns its handle, each earlier handle is freed once when its Recreate has finished, and no two wrappers share a native stream |
| StreamLineage.LaterCallsDoNothing | dotnet/src/Zerobus/ZerobusSdk.cs:516-537 | in any continuation, disposing or recreating a replaced wrapper frees nothing, claims nothing and makes no native stream |
| StreamLineage.OrphanedByLosing | dotnet/src/Zerobus/ZerobusSdk.cs:516-537 | a native stream loses its last owner in the step in which its Recreate finds the wrapper disposed, and in no other |
| StreamLineage.OrphanedExactly | dotnet/src/Zerobus/ZerobusSdk.cs:516-537 | in every run the native streams without an owner are exactly those whose Recreate lost the compare-and-swap |
| StreamLineage.UndisturbedRecreateKeepsAll | dotnet/src/Zerobus/ZerobusSdk.cs:516-537 | so there is none if no wrapper gets another retiring call while it is being recreated |
| StreamLineage.RecreateCanOrphan | dotnet/src/Zerobus/ZerobusSdk.cs:516-523 | a run in which one does |
| SdkRegistry.EveryLiveCoreIsOwned | purego/zerobus/sdk.go:315-368 | each live core is in the registry, held by a create that has not registered it, or still to be terminated by the Close tearing down |
| SdkRegistry.NothingLeaksAfterClose | purego/zerobus/sdk.go:185-212 | once that Close has returned and no create is running, no core is live |
| SdkRegistry.ReturnedCloseMeansDownExactly | purego/zerobus/sdk.go:185-212 | when any Close has returned and no create is running, no core is live if and only if the call that closes has no stream left to wait for; so its own return means none is |
| SdkRegistry.SecondCloseReturnsEarly | purego/zerobus/sdk.go:185-191 | a run in which a second Close has returned and a stream is still up |
| SdkRegistry.ConnClosedOnceAndLast | purego/zerobus/sdk.go:185-212 | the connection is closed at most once, and is closed exactly when the call that closes has returned, after every stream in the snapshot is down |
| SdkRegistry.InsertNeverHitsNil | purego/zerobus/sdk.go:350-358 | the map is nil exactly when the SDK is closed, and a create that gets to registering can always do so |
| SdkRegistry.NothingReverts | purego/zerobus/sdk.go:455-465 | closed stays closed, what is down stays down, what was forgotten stays forgotten |
| SdkRegistry.ClosedStreamIsNotRetained | purego/zerobus/stream.go:93-104 | a stream whose Close returned is down and not in the registry, then or ever after |
| SdkCalls.CreateReturnsExactly | purego/zerobus/sdk.go:315-368 | in every run a create returns the stream it made if and only if one was made, the SDK was not closed when it came to register it and, if it waits, the stream got ready; otherwise it has torn the stream down |
| SdkCalls.CloseClosesThenForgets | purego/zerobus/stream.go:93-104 | a returned Stream.Close has closed its core and then forgotten it |
| SdkCalls.RegistryIsExact | purego/zerobus/sdk.go:350-368 | while the SDK is open, the registry is exactly the streams whose create is past registration and has not failed, less those closed by their callers |
| SdkCalls.ReturnedStreamStaysUp | purego/zerobus/sdk.go:350-368 | a stream that was returned, or may still be, is up until its own Close or the close of the SDK takes it down |
| SdkCalls.EveryCallGoesOn | purego/zerobus/sdk.go:185-212 | no call is ever stuck, whatever the environment decides |
| JsonIngest.TotalByteLength | purego/zerobus/json_ingest.go:154-163 | the sum is exact when it fits in an int and an error exactly when the true sum does not, without overflow on the way |
| JsonIngest.TotalLengthIsTheSum | purego/zerobus/json_ingest.go:154-163 | the total of a batch is the sum over its parts, and of one record its length |
| JsonIngest.EncodeBatch | purego/zerobus/json_ingest.go:98-111 | all records converted in order, or the first obstacle and nothing |
| JsonIngest.IngestRecords | purego/zerobus/json_ingest.go:58-83 | the core receives exactly the in-order encodings of every record, or is not called; each refusal is given with its own condition, limits and defaults written out: size, no converter, gate, and the first record that meets a cancelled context or does not convert |
| JsonIngest.GateIsExclusive | purego/zerobus/json_ingest.go:133-152 | in every run tokens are holders, never more than one, and releasing never blocks |
| JsonIngest.ConversionOrderIsIngestOrder | purego/zerobus/json_ingest.go:28-83 | payloads reach the core in the order they were converted, at most one is converted and not yet handed over, and each is one call's complete encoding |
| JsonIngest.EveryCallGetsItsDue | purego/zerobus/json_ingest.go:58-83 | in every run the core gets each call's batch at most once, converted from the records the call was made with; a call that returned got it there unless its context was cancelled or a record does not convert |
| JsonIngest.NobodyIsStuck | purego/zerobus/json_ingest.go:133-152 | while some call has not returned, some call can take the gate or go on |
| StreamHandle.ResultGuard.ThrowIfError | cpp/src/detail/ffi_util.hpp:51-73 | a failure becomes an exception with the message copied out, and the message is freed either way |
| StreamHandle.CreateStream | cpp/src/sdk.cpp:160-181 | the wrapper returned owns the handle just made and the callback it was made with |
| StreamHandle.Stream.MoveAssign | cpp/src/stream.cpp:129-143 | takes over the other's handle and callback after releasing its own, and does nothing on self-assignment |
| StreamHandle.Stream.Move | cpp/src/stream.cpp:124-127 | the new wrapper has what the old one had, and the old one nothing |
| StreamHandle.Stream.Release | cpp/src/stream.cpp:111-119 | the handle, if any, is closed, then freed whatever the close answers, and then the message freed; the wrapper lets go of it |
| StreamHandle.Stream.Close | cpp/src/stream.cpp:265-279 | closes the handle, frees it only if that succeeds, keeps it for recovery and retry otherwise, and throws what the core reported |
| StreamHandle.Stream.Use | cpp/src/stream.cpp:18-28 | a call on a released wrapper is rejected before the C interface; any other is made once and its message freed |
| StreamHandle.StepKeepsInv | cpp/src/stream.cpp:111-143 | every operation keeps one owner per live handle, the owner holding the callback the handle was made with, and leaves no message |
| StreamHandle.LiveHandlesHaveOneOwner | cpp/src/arrow_stream.cpp:52-80 | in every run of constructions, moves, calls, closes and destructions each live handle has exactly one owner and nothing is used or freed after it was freed |
| StreamHandle.FreedExactlyOnce | cpp/src/arrow_stream.cpp:157-171 | when all wrappers are gone, every handle ever made has been freed exactly once |
| StreamHandle.ClosedBeforeFreed | cpp/src/stream.cpp:111-119 | in every run each free of a handle directly follows a close of it |
| StreamHandle.MessagesFreedExactlyOnce | cpp/src/detail/ffi_util.hpp:32-46 | every error message the core allocated is freed exactly once |
| StreamHandle.Perform | cpp/src/stream.cpp:111-143 | performing an operation on the objects leaves the native log and every wrapper as the step on values says |
| StreamHandle.Execute | cpp/src/stream.cpp:111-143 | so a whole program of constructions, moves, calls, closes and destructions does what its run on values says |
| HeadersTrampoline.MakeError | cpp/src/headers_callback.cpp:36-50 | the error carries its message, an empty one when that cannot be allocated, and none only when both fail |
| HeadersTrampoline.MarshalHeaders | cpp/src/headers_callback.cpp:92-120 | every header in key order if no text has a NUL and no allocation fails; otherwise nothing is left allocated and the first obstacle is named |
| HeadersTrampoline.Trampoline | cpp/src/headers_callback.cpp:65-124 | for every pattern of failures exactly what the result reaches is newly allocated; the result is the provider's map in key order or an error that says why, lost exactly when its message and the empty fallback fail to allocate |
| HeadersTrampoline.ErrorNamesItsCause | cpp/src/headers_callback.cpp:65-124 | the error's text is what was thrown, or names the NUL if a header with one comes before any failed allocation, or else the memory |
| HeadersTrampoline.CallThenFree | rust/ffi/zerobus.h:237-264 | one zerobus_free_headers after the call restores the heap |
| BatchMarshal.MakeProtoBatch | cpp/src/stream.cpp:53-81 | the arrays meet what Rust's slices ask for and read back as the records, empty ones included |
| BatchMarshal.GoBatchReadsBack | go/ffi.go:733-759 | Go's arrays read back as the same records wherever a zero length is read as empty |
| BatchMarshal.GoBatchIsFitExactly | go/ffi.go:733-759 | they meet what Rust's slices ask for if and only if no record is empty |
| BatchMarshal.GoIngestProto | go/ffi.go:720-778 | on every path the C arrays are freed, the batch sent is the records' layout, and the outcome is that of the reply or of the failed allocation |
| BatchMarshal.GoIngestJson | go/ffi.go:781-828 | on every path every C string and the array are freed |
| BatchMarshal.BindingsAgreeExactly | rust/ffi/src/stream.rs:1045-1112 | Go and C++ report the same for a reply unless Rust finds empty a batch that was sent as not empty; what each reports is given for every kind of reply |
| BatchMarshal.GoJsonReadsBackExactly | go/ffi.go:801-803 | a Go JSON batch arrives whole if and only if no record has a NUL |
| BatchMarshal.MakeJsonBatch | cpp/src/stream.cpp:85-97 | a C++ JSON batch is refused exactly when a record has a NUL, and otherwise arrives whole |
| BatchMarshal.ExportRecords | rust/ffi/src/stream.rs:243-278 | each record's bytes in a block of its own, tagged, in an array that keeps the spare room of the collected Vec, nothing older touched |
| BatchMarshal.CopyRecords | cpp/src/stream.cpp:243-255 | the copy loop gives each record's tag, JSON if and only if it is JSON, and its bytes, in order, or stops where an allocation throws |
| BatchMarshal.FreeRecordArray | rust/ffi/src/stream.rs:1765-1783 | frees the array and every block it owns once, the array as it was allocated exactly when it had no spare room |
| BatchMarshal.GetUnackedRecords | cpp/src/stream.cpp:231-256 | the core's records come out in order, each with its own tag and bytes, every block is given back even when the copy throws half-way, and the array as it was allocated exactly when it had no spare room |
| ConfigEncoding.ToC | cpp/src/detail/config_convert.hpp:20-63 | whatever the library's defaults are, the core decodes each field of the struct to what the options ask for, the callback wait and the callbacks included |
| ConfigEncoding.ArrowToC | cpp/src/detail/config_convert.hpp:66-99 | refused exactly for a zero capacity or a pause above 2^63-1, otherwise the core decodes every option unchanged |
| ConfigEncoding.MeaningIsFaithful | cpp/src/detail/config_convert.hpp:20-63 | options that mean the same to the core differ at most in how they name the same callback wait |
| ConfigEncoding.ConvertConfigToC | go/ffi.go:216-296 | library defaults for nil; otherwise each number left at zero arrives as its own default, recovery, record type and pause by their own rules |
| ConfigEncoding.FillingIsNormalForm | go/ffi.go:216-296 | filling in defaults is idempotent, and two options encode alike if and only if they fill in alike |
| ConfigEncoding.RecoveryOffSurvivesExactly | go/ffi.go:229-240 | switching recovery off reaches the core if and only if recovery timeout, backoff or retries is non-zero |
| ConfigEncoding.FillingFillsOnlyGaps | go/ffi.go:216-276 | each number and the record type is replaced, by its own default, if and only if it was left at zero; the pause never is, and recovery only when none of its settings is given |
| ConfigEncoding.GoDefaultsAreTheLibrarys | go/types.go:67-78 | Go's defaults are the library's, save the callback wait |
| ConfigEncoding.StreamsAgreeExactly | rust/ffi/src/stream.rs:17-49 | the same options given in Go and C++ reach the core alike if and only if Go's have nothing to fill in and C++ waits without end |
| ConfigEncoding.ConvertArrowConfigToC | go/arrow_ffi.go:161-228 | library defaults for nil; otherwise the core decodes LZ4 for LZ4 and Zstandard for Zstandard, no recovery only if it was disabled, each number with its own default, and the pause if it is below 2^63 |
| ConfigEncoding.ArrowFillingFillsOnlyGaps | go/arrow_ffi.go:161-228 | what is left at zero gets its own default, recovery and compression arrive as chosen, and the numbers arrive unchanged if and only if none is zero |
| ConfigEncoding.GoArrowDefaultsAreTheLibrarys | rust/ffi/src/arrow.rs:739-753 | Go's copy of the Arrow defaults, and what Go makes of options left at zero, are the library's defaults |
| ConfigEncoding.PauseSurvivesExactly | go/arrow_ffi.go:210-214 | the pause reaches the core if and only if it is below 2^63; above, the core reads no limit |
| ConfigEncoding.ArrowEncodingsAgreeExactly | go/arrow_ffi.go:161-228 | for the same Arrow options Go and C++ encode alike if and only if no number is zero and the pause fits |
| JsonExample.ToJson | java/examples/json/BatchIngestionExample.java:204-219 | the loop prints the entries in iteration order |
| JsonExample.ParseJson | java/examples/json/BatchIngestionExample.java:177-202 | the loop computes the specified map or the exception |
| JsonExample.ParseIsReadable | java/examples/json/BatchIngestionExample.java:182-199 | whatever text it reads, the parser's keys have no quote or colon and its strings no inner comma, white space and quote |
| JsonExample.SplitAtComma | java/examples/json/BatchIngestionExample.java:182 | the lookahead splits at a separator independently of what stands before it |
| JsonExample.RoundTripExactly | java/examples/json/BatchIngestionExample.java:177-219 | for every map and iteration order, parsing what was printed gives the map back if and only if no key has a quote or colon and no key or string value, closing quote included, has a comma, white space and a quote |

## Left out

- The concurrent protocols (pure-Go core, registry and gate, .NET stream) are state machines on values, not classes: a class method runs alone, while these results are about interleavings of single steps. Update in place of their fields is thereby not captured; `IngestBuffer.Buffer` and `StreamHandle.Stream`, whose methods do run alone, are classes.
- Time: lack-of-ack, pause, open, flush and back-off timers and retry budgets. In the models a connection may break, a worker stop and a supervisor give up at any moment, so each timing is one of the runs.
- gRPC, TLS, OAuth, proxies, headers caching and the server itself; the server of `IngestCore` may send any ack and keep any prefix of what it received.
- IngestCore.EventApplies: a completion that is out of sequence is refused without first applying a held ack; it is proved not to occur.
- IngestProgress.EverythingCanBeAcknowledged: says that a run leads there, as do the other results about going on; which run is taken, and how soon, is up to scheduler, network and server.
- IngestBuffer.Buffer.NextItem: the wait on the condition variable between two looks is not modelled; a look that finds nothing says so.
- IngestBuffer.WaitersAreWaitingForSomeone: that what occupies capacity is given back is up to the other callers; `WaiterWasServed` is the part the buffer promises.
- IngestProperties.FlushMeansDurable: speaks of a server that acknowledges only what it holds; nothing can be said of one that does not.
- WaitForOffset, Ingest of single records and the record encoders of the pure-Go core: single-branch facts beside what is proved.
- StreamSafety.NoUseAfterFree: the raw pointer handed out through `NativePointer` is not followed, so neither is its use by `RecreateStream` after the read lock is given back.
- StreamTrace.CloseClosesExactly: the look at the native IsClosed and the native Close inside `Close` are one position, as they are in `CloseAsync`; only disposal asks and closes in two.
- StreamLineage.LaterCallsDoNothing: `GC.SuppressFinalize` and disposal of the lock object are not modelled.
- JsonIngest.GateIsExclusive: fairness of Go's select is not modelled; a call may wait at the gate for ever.
- HeadersTrampoline.CallThenFree: that `zerobus_free_headers` skips null strings and frees the array even for a count of 0 is taken from its source, rust/ffi/src/common.rs.
- StreamHandle.LiveHandlesHaveOneOwner: a handle is an allocation, so reuse of an address for a later one is a different handle; acknowledgement callbacks still running after close depend on the core and are not followed.
- StreamHandle.Stream.Close: an ArrowStream's fallback message names Arrow; `is_closed` is left out as a single branch.
- `get_unacked_batches` of the Arrow stream: the same copy loop without tags.
- BatchMarshal.GoJsonReadsBackExactly: Rust's check that a C string is UTF-8 is not modelled.
- ConfigEncoding.ToC: fields are 64-bit as on the supported platforms; unknown future fields of the struct do not exist in the model.
- JsonExample.RoundTripExactly: values are strings, ints and longs, the only ones the example builds; digits outside ASCII, which `Long.parseLong` also accepts, are not modelled.
- ArrowReplay.StepKeepsInv: record counts do not overflow 64 bits, and a batch is its rows; schemas, the Flight encoder and the permits of the in-flight limit are not modelled. Dropping the stream without closing it keeps nothing, as the source says.
- ArrowReplay.OffsetMeansAcknowledged: the offset is published in the step that applies the acknowledgment, although the source publishes it just after it gives the lock back. A call that reports an error because close had detached the sender leaves its batch pending, and it counts as taken.
- The Rust core's proto and JSON streams and its multiplexed stream, JNI, PyO3, the TypeScript binding, schema and descriptor code, builders, validation of arguments and error types.
