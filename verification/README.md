# Anydrop: the transfer protocol, the coordinator and their smaller companions

A Dafny 4.11 model of the parts of Anydrop that have state, concurrency and failures, with proofs about every run of
them. `dafny verify dfyconfig.toml` checks everything.

## What is modelled

**The file transfer** (`transfer-engine/src`). `sendFile` and `receiveFile` are two state machines with one step per
`await` of an I/O promise, per message and per signal (`Sender.dfy`, `Receiver.dfy`). A step that is not enabled leaves
the state alone, so a run is any list of actions whatsoever. Timeouts and failures of storage, digest or channel are
actions of their own. The receiver's promise queue, its abort and completion handlers (each suspended at its own stage),
its `settled` guard, the chunks on disk and the resume store are all part of the state. `Session.dfy` joins the two with
an ordered, reliable channel and lets one session follow another over the same disk and store, with the source's bytes
possibly changing in between. `TransferSession.dfy` has the closures as objects whose fields change in place, and
`TransferRun.dfy` puts the two objects on one channel; their loops take any schedule and promise the results on the
fields. How sessions end, cancelled, declined, failed or complete, is in `SenderOutcomes.dfy`, `ReceiverOutcomes.dfy`,
`DeclinedRun.dfy`, `UnfailingRun.dfy` and `CompletedSession.dfy`; what they leave for the next one in `Checkpoints.dfy`. Underneath are the chunk arithmetic, the four-byte frame, the
backpressure gate, both ways of reassembling the file, the base64 and `|`-joined hash chain and the resume search.

SHA-256 is any function from byte strings to 32 bytes. No function to 32 bytes is injective, so a theorem that needs
collision freedom asks only that the digest tells apart the finitely many inputs at hand (`Distinguishes`,
`DistinguishesFiles`): each stored chunk from the source chunk at its place, and the two joined digest lists.

**The coordinator** (`coordinator/src/server.ts`, `peerRegistry.ts`, `web/src/lib/coordinatorClient.ts`). The server's
registry and socket table, what it has sent on every connection and not yet delivered, and the clients' folding of those
messages, composed in `Coordination.dfy` with queues in both directions, reconnects, superseded sockets, late closes,
half-closed sockets, sweeps and a clock. `CoordinatorReplies.dfy` says what each event makes the server send and to whom,
`CoordinationRuns.dfy` that the whole is made of runs of its parts.

**Smaller protocols.** The PIN loops of `web/src/lib/peerSession.ts`, the trust stores, the election and failover machine
of `coordinator/src/election.ts` and the candidate buffer of `transfer-engine/src/connection.ts`.

## What the code does not do

- A file of 2^32 chunks or more is never sent. Right behind the accept `sendFile` makes an array of all digests, and no
  JavaScript array is that long: the sender throws without an event and without an abort, and the receiver, which has
  accepted, waits for a first frame. Every honest run of such a file stops there after at most six steps
  (`OversizedRunsStall`, `HonestRunEndsIff`), and in no run is any of it sent or written (`OversizedIsNeverSent`).
- The receiver's abort is lost on a sender that is hashing the digest list: it looks for a cancel for the last time
  before, and listens for one again only behind it. The sender then sends its completion to a receiver that has
  announced the cancellation, and waits for a verdict until its timeout (`SenderCanBeAbandoned` is an input). Where a
  run without failures can go no further, the sender has ended iff that has not happened (`UnfailingRunsEnd`,
  `AbandonedWhileHashing`).
- After a mismatch the resume entry stays in place, so a source that has changed fails every honest try until the entry
  expires (`ChangedSourceFails` is an input). An honest run that has come to a stop has verified the file iff it has
  fewer than 2^32 chunks and what it loaded is a prefix of the source (`HonestRunVerifiesIff`,
  `HonestOutcomeIffStoredIsSource`); the safety theorems hold for every size, from any store that earlier sessions can
  have left.
- The abort of `IndexedDbWriter` and `FileSystemAccessWriter` discards bytes that the resume entry goes on naming. In a
  session in which the writer discards nothing, what it finalizes is the source iff the chunks the entry named when it was
  loaded were still there (`FinalizedIsSourceIff`), as they are if nothing has been discarded since the last session that
  found no entry alive (`FinalizedIsSourceUnlessDiscarded`). Otherwise the next session can match the file hash, tell
  the sender so, and finalize a writer that has nothing (`AliveEntryDeliversNothing`).
- `TauriFsWriter` ignores how many bytes a write reports: the record stays true in every file iff a resolved write was
  whole (`RecordKeptIffWhole`).
- A positional write longer than a chunk runs into the next one, and the receiver does not check the length of a frame:
  the record of the other chunks survives iff the write is no longer than a chunk or none comes after it
  (`SparesIffShort`, `LongFrameBreaksRecord`).
- `TauriFsWriter` never truncates: the file on disk is the source and nothing more iff it was not longer before and no
  byte was written beyond the last chunk (`PositionalReassembly`).
- A connection that registers several devices leaves entries behind when it goes; the tables stay in step iff it had
  registered at most one (`CleanupNeedsOneDevice`, `TwoDevicesOnOneConnection`).
- Pairing consults each side's own store. When only one side trusts the other, the side that does not trust waits for
  ever; both sides get done iff the two stores agree (`DoneIffStoresAgree`).
- Candidates heard while the buffer is being drained overtake the buffered ones (`DrainCanBeOvertaken`). The order of
  what is passed on and still buffered is the one heard iff that never happens (`OrderKeptIffNoOvertake`); the order of
  what is passed on alone iff no candidate is passed on out of the buffer after it was overtaken
  (`PassedInOrderIffNoneOvertaken`).
- The reconnect delay never reaches its cap of ten seconds, because the client gives up after the fifth attempt, whose
  backoff is eight (`DelaysStayBelowTheCap`). The role check after the failover delay never finds a coordinator
  (`RoleCheckNeverFires`).

## Model

| member | source | states |
|---|---|---|
| `SessionTheorems.CompleteMeansStored` | transfer-engine/src/transferSession.ts:258-389 | in any number of sessions over one disk, from nothing or from a sound resume state, and with the source changing in between: if the receiver announces completion, the stored chunks in order are the bytes being sent now, collisions on the inputs at hand aside |
| `PositionalSession.CompleteFileBeginsWithSource` | transfer-engine/src/diskWriters/tauriFsWriter.ts:25-44 | end to end over the bytes of one file written by position, through interrupted writes and any number of sessions: when the receiver announces completion, the file begins with the bytes being sent now |
| `PositionalSession.RunKeepsFile` | transfer-engine/src/diskWriters/tauriFsWriter.ts:30-34 | after every step of every run the file holds, at its place, every chunk the session counts as stored: the positional file refines the chunk store |
| `SessionTheorems.PersistedStateIsSound` | transfer-engine/src/transferSession.ts:318-326 | after every step of every run the persisted entry names a prefix of the file, and each of its digests is of the bytes stored at that index |
| `Checkpoints.CheckpointRecords` | transfer-engine/src/transferSession.ts:318-326 | a checkpoint leaves an entry with exactly the indices and the digests that the session holds, stamped with the time it is saved, and changes neither disk nor outcome |
| `Checkpoints.CancelRecords` | transfer-engine/src/transferSession.ts:347-359 | a session whose sender has cancelled writes the same entry once its writer has been aborted |
| `Checkpoints.CompletionClears` | transfer-engine/src/transferSession.ts:370-376 | behind a verified and finalized file the entry is removed |
| `Checkpoints.EntryKeepsUp` | transfer-engine/src/transferSession.ts:296-313 | whatever frames arrive, whatever fails and in however many sessions: until the file has been verified, at most checkpointEvery of the chunks held are missing from the entry, and the entry names nothing that is not held |
| `NextSession.EntryIsNearby` | transfer-engine/src/transferSession.ts:296-313 | in every reachable state of the two parties before a positive verdict the entry is a prefix of the file, at most checkpointEvery chunks shorter than what has been received |
| `NextSession.ResumesNearby` | transfer-engine/src/transferSession.ts:243-256 | a session ends anywhere before it has verified, and another one opens while the entry is alive: wherever that one gets to, if it has accepted, then from no further back than checkpointEvery chunks before what the first one had received |
| `Checkpoints.SharedEntryIsCurrent` | transfer-engine/src/transferSession.ts:245-293 | in every run over the store in memory, whose entry shares the digest object, a digest computed since the last checkpoint is in the entry at once, though its index is not |
| `CompletedSession.CompletionLeavesNoEntry` | transfer-engine/src/transferSession.ts:364-376 | in every reachable state in which completion has been announced there is no resume entry, and nothing is queued that could still write one |
| `SessionTheorems.PrefixAndProgress` | transfer-engine/src/transferSession.ts:243-246 | the received set is a prefix of the file; the sender resumes from the receiver's start point, which is the length of that prefix until the acceptance is sent; the chunks on the wire are exactly those from there on, once each and in order; both sides report progress chunk by chunk |
| `SessionTheorems.AcceptanceNamesThePrefix` | transfer-engine/src/transferSession.ts:243-256 | the acceptance carries the length the received prefix has when it is sent |
| `SessionTheorems.SenderCompleteMeansVerified` | transfer-engine/src/transferSession.ts:166-180 | a sender that announces completion was answered a positive verdict, which the receiver gave only for a full digest list hashing to the file hash of the source; unless the receiver has ended otherwise, the stored chunks have that file hash |
| `SessionTheorems.CancelExcludesVerdict` | transfer-engine/src/transferSession.ts:112-119 | once the sender has sent an abort, no completion is on the wire, no verdict is ever sent and neither side announces completion |
| `SessionTheorems.NothingBeforeAcceptance` | transfer-engine/src/transferSession.ts:233-256 | a chunk on the wire or a chunk written means that the acceptance, with the resume point in use, was the first thing the receiver sent |
| `SessionSafety.ReachableKeepsSystem` | transfer-engine/src/transferSession.ts:92-395 | the invariant of the two parties and the channel: sender, receiver and queue positions agree after every interleaving, across sessions |
| `SessionSafety.ReachableKeepsCross` | transfer-engine/src/transferSession.ts:362-388 | a verdict exists only behind a completion on the wire, and a sender completes only on a verdict |
| `Session.RunExists` | transfer-engine/src/transferSession.ts:92-395 | every list of actions is the actions of a run: the theorems about reachable states cover every interleaving |
| `HonestOutcome.HonestRunsSucceed` | transfer-engine/src/transferSession.ts:122-180 | honest-run success: from nothing, from an expired resume state or from one over chunks of the source, for every size from 0 up to fewer than 2^32 chunks and every interleaving, a run without cancel or failure has at most 30 steps per chunk and 60 more that change anything, and when nothing can move any more both sides have completed and the disk is the source |
| `HonestOutcome.HonestOutcomeIffStoredIsSource` | transfer-engine/src/transferSession.ts:243-248 | below 2^32 chunks and from any resume state earlier sessions may have left: an honest run that cannot go on has verified the file iff what it loaded is a prefix of the source, collisions on the inputs at hand aside; otherwise both sides have announced the error, the entry still names the foreign chunks, and every further try in its lifetime starts from them again |
| `HonestOutcome.ChangedSourceFails` | transfer-engine/src/transferSession.ts:243-248 | an input: one byte changed behind a live entry; the store is one that earlier sessions can leave, and every honest run over it that stops ends in the error on both sides |
| `HonestRun.HonestRunAdvances` | transfer-engine/src/transferSession.ts:258-389 | below 2^32 chunks and from any resume state, every step of an honest run that changes anything lowers a measure bounded by 30 per chunk and 60 |
| `HonestRun.StuckMeansDecided` | transfer-engine/src/transferSession.ts:362-388 | an honest run of fewer than 2^32 chunks, whose states all keep the invariant asked for here, cannot get stuck before both sides have announced the same verdict: no reply is lost and no digest is missing |
| `TransferLimits.HonestRunVerifiesIff` | transfer-engine/src/transferSession.ts:140 | an honest run that has stopped, from any resume state, has verified the file iff it has fewer than 2^32 chunks and what was loaded is a prefix of the source |
| `TransferLimits.VerdictMeansListable` | transfer-engine/src/transferSession.ts:140-170 | in any run whatsoever a positive verdict means that the file has fewer than 2^32 chunks |
| `ReceiverLimits.OverflowNeverVerifies` | transfer-engine/src/hash.ts:34-42 | whatever the store holds and whatever frames and control messages arrive, in however many sessions, a transfer of 2^32 chunks or more is never verified: no array holds its digests |
| `OversizedRun.OversizedRunsStall` | transfer-engine/src/transferSession.ts:122-140 | of a file of 2^32 chunks or more, over any store, every honest run has at most six steps that change anything, and where it stops only the offer is on the wire, the sender has thrown without an event, and the receiver has accepted, has written nothing and is still transferring |
| `OversizedRun.HonestRunEndsIff` | transfer-engine/src/transferSession.ts:122-180 | where an honest run stops, the receiver has come to an end iff the file has fewer than 2^32 chunks; the sender has ended either way, and without an event iff the file is not that small |
| `OversizedRun.OversizedIsNeverSent` | transfer-engine/src/transferSession.ts:140-164 | in every run and across sessions, nothing of such a file is sent but offers and aborts, nothing is written, no verdict is given and nobody announces completion |
| `ReceiverLimits.NothingWithoutConfirmation` | transfer-engine/src/transferSession.ts:233-241 | until confirm has answered yes nothing is written, the disk and the resume store are untouched and nothing but a rejection is sent |
| `DeclinedRun.DeclineIsAnswered` | transfer-engine/src/transferSession.ts:238-241 | a no, with no abort heard before it, sends exactly the rejection and ends the session normally, and touches nothing else |
| `DeclinedRun.DeclinedRunsEnd` | transfer-engine/src/transferSession.ts:122-131 | over any store and for every file: a run in which the receiver's user says no and nobody cancels or fails has at most four steps that change anything, and where nothing can move any more the receiver has sent the rejection and resolved, the sender has announced the rejection and returned, and the store is as it was |
| `UnfailingRun.UnfailingRunsEnd` | transfer-engine/src/transferSession.ts:92-395 | liveness with cancels: both users may cancel, and the receiver's decline, at any moments whatever; where a run without failures can go no further, the receiver has ended for a reason that is on the wire, and the sender has ended for one iff it was not abandoned |
| `AbandonedSender.AbandonedWhileHashing` | transfer-engine/src/transferSession.ts:162-175 | the sender can be abandoned only by an abort of the receiver that reaches it while it hashes the digest list, behind its last check and before it waits for the verdict |
| `AbandonedSender.SenderCanBeAbandoned` | transfer-engine/src/transferSession.ts:162-175 | an input: a run without failures in which that happens, the receiver announces the cancellation, everything is delivered and the sender waits for a verdict until its timeout |
| `ReceiverOutcomes.ReceiverOutcomeDiscipline` | transfer-engine/src/transferSession.ts:232-395 | in every run and with arbitrary frames: a session that resolves has announced completion or cancellation last, or was declined and has sent the rejection alone; one that throws has announced an error or nothing; one that goes on, only progress, and no transfer or handler without an acceptance |
| `ReceiverOutcomes.RemoteAbortClosesTransfer` | transfer-engine/src/transferSession.ts:347-360 | the sender's abort during a transfer suspends one handler behind what is queued at that moment, and does nothing else |
| `ReceiverOutcomes.EarlyAbortEnds` | transfer-engine/src/transferSession.ts:222-254 | the sender's abort before the transfer is noted; the session then ends cancelled, whatever the user answers, having sent nothing |
| `ReceiverOutcomes.LocalAbortClosesTransfer` | transfer-engine/src/transferSession.ts:328-342 | the user's cancel during a transfer tells the sender at once, suspends one handler behind the queue, and acts once |
| `ReceiverOutcomes.EarlySignalCancels` | transfer-engine/src/transferSession.ts:256-342 | a cancel of the user before the transfer: the session accepts, sends the abort right behind the acceptance and is being closed |
| `ReceiverOutcomes.AbortedWriterEnds` | transfer-engine/src/transferSession.ts:331-358 | once the writer has been aborted: the user's cancel resolves with the cancellation announced, a mismatch throws with the error announced, the sender's abort goes on to save the entry; nothing is sent |
| `ReceiverOutcomes.FinishingEnds` | transfer-engine/src/transferSession.ts:352-376 | the last step of a completion announces completion, that of the sender's abort the cancellation, and both resolve |
| `ReceiverOutcomes.QueueFailureThrows` | transfer-engine/src/transferSession.ts:277-316 | a frame without an index, or a failing write, digest or checkpoint, makes the transfer throw without an event, with the entry and what is held as they were |
| `ReceiverOutcomes.FailedQueueStops` | transfer-engine/src/transferSession.ts:277-316 | a failed queue takes up nothing more and lets every handler that waits for it go on |
| `ReceiverOutcomes.CloserFailureThrows` | transfer-engine/src/transferSession.ts:339-386 | a writer, store or digest that fails under a handler makes a transfer that goes on throw without an event, and changes nothing stored |
| `ReceiverOutcomes.EarlyFailureThrows` | transfer-engine/src/transferSession.ts:232-254 | a failing confirm, load, open or early abort makes the session throw silently |
| `ReceiverOutcomes.EndedSessionsWindDown` | transfer-engine/src/transferSession.ts:277-389 | in every run and with arbitrary frames: where nothing under way in an ended session can go on, the frames still queued have been taken off, unless the queue had stopped, and every handler has finished |
| `ReceiverOutcomes.LateFrameIsDropped` | transfer-engine/src/transferSession.ts:289 | a frame whose turn comes after the session has ended is dropped: nothing of it is written, recorded or reported |
| `ReceiverOutcomes.LateDigestIsNoted` | transfer-engine/src/transferSession.ts:293-294 | a digest that resolves after the session has ended is noted, but its chunk is neither held nor reported |
| `ReceiverSafety.EventLinearity` | transfer-engine/src/transferSession.ts:260-275 | under every interleaving of frames, suspensions, aborts, completions and failures there is at most one terminal event and it is the last; once settled, no action makes the session emit anything |
| `ReceiverSafety.RunKeepsDurable` | transfer-engine/src/transferSession.ts:277-326 | across any number of sessions with arbitrary frames and endings, over a store keyed by chunk index: every index of the persisted and of the live resume state has, on disk, the bytes its digest is of |
| `PositionalRecord.FileKeepsPersistedDigests` | transfer-engine/src/diskWriters/tauriFsWriter.ts:30-44 | the same over one positional file, for frames no longer than a chunk: through any number of sessions and interrupted writes every persisted digest is of bytes the file has at the place of its chunk |
| `PositionalRecord.SparesIffShort` | transfer-engine/src/diskWriters/tauriFsWriter.ts:30-34 | a positional write at chunk i leaves alone whatever other chunk below n is on record, in every file, iff it is no longer than a chunk or i is the last of them |
| `PositionalRecord.LongFrameSpoilsNeighbour` | transfer-engine/src/diskWriters/tauriFsWriter.ts:30-34 | a failing input: two chunks of four bytes, the second on record, and eight bytes written for the first |
| `PositionalRecord.LongFrameBreaksRecord` | transfer-engine/src/transferSession.ts:289-295 | the run of the receiver that does it, and leaves a persisted index whose bytes are gone |
| `PositionalRecord.RecordKeptIffWhole` | transfer-engine/src/diskWriters/tauriFsWriter.ts:30-34 | a resolved write, counted as a whole chunk, leaves every record of every file true iff it wrote the whole chunk |
| `ReceiverSafety.RunKeepsWrites` | transfer-engine/src/transferSession.ts:289-295 | within a session each index is written at most once, whatever frames arrive |
| `ReceiverSafety.IntegrityUnderArbitraryDelivery` | transfer-engine/src/transferSession.ts:277-295 | in a fresh session with genuine control messages and frames lost, repeated, reordered or corrupted at will, a positive verdict means that every chunk was written exactly once with exactly the bytes of the source, so that the file begins with the source |
| `ReceiverSafety.MatchedIsWritten` | transfer-engine/src/transferSession.ts:366-369 | a fresh session that verified did so on the digests of exactly what it wrote |
| `SenderSafety.RunKeeps` | transfer-engine/src/transferSession.ts:92-184 | whatever the peer sends and whenever it is cancelled: the wire is the offer, the missing chunks in order and at most one closing message, the digest list covers every chunk read, and the events are the progress of the chunks sent plus the outcome |
| `SenderSafety.OutcomeDiscipline` | transfer-engine/src/transferSession.ts:112-183 | a normal return is announced by exactly one terminal event with no progress behind it; a throw announces at most the verification error |
| `SenderSafety.AbortExcludesCompletion` | transfer-engine/src/transferSession.ts:112-119 | at most one of abort and completion is ever sent, once and last; an abort is never an answer to a received one; a completion carries the hash of the whole file |
| `SenderOutcomes.EndsWithCause` | transfer-engine/src/transferSession.ts:112-181 | one step ends a session of the sender iff it has a cause to: a failure, the peer's abort or rejection while one is awaited, the verdict, more chunks than an array holds, or a cancel where the loop looks for one; it returns or throws, with the one event and the one message of that cause: the rejection is announced as such, a negative verdict as an error, the user's cancel is told to the peer, the peer's is not |
| `SenderOutcomes.EveryEndHasItsCause` | transfer-engine/src/transferSession.ts:112-181 | in every run an ended session was ended by exactly one such step, and has stayed as that step left it |
| `SenderOutcomes.CancelIsNoted` | transfer-engine/src/transferSession.ts:105-110 | a cancel of either side that cannot act at once is noted and stays noted |
| `SenderOutcomes.CancelIsPrompt` | transfer-engine/src/transferSession.ts:140-164 | in every run, once a sender in its loop has been cancelled by either side, not one more chunk is sent and no more progress reported; what can still come is the one cancellation event and, unless the receiver has cancelled too, the one abort |
| `SenderOutcomes.AcceptanceStartsLoop` | transfer-engine/src/transferSession.ts:124-141 | an acceptance starts the loop at the first chunk with the resume point it names: skipped chunks are read and hashed too |
| `TransferSession.SendSession.SendLoop` | transfer-engine/src/transferSession.ts:140-164 | the loop and the file hash as they run, the user or the peer cancelling during any of the awaits: it ends cancelled, with the cancellation announced last and an abort sent iff none was received, or waiting for the verdict with exactly the missing chunks and the right file hash on the wire; undisturbed always the latter |
| `TransferSession.SendSession.Perform` | transfer-engine/src/transferSession.ts:92-184 | each await, message and signal does to the captured variables what the state machine says |
| `TransferSession.SendSession.RunAll` | transfer-engine/src/transferSession.ts:92-184 | under any schedule the object keeps wire, digests and events in step: at most one terminal event, exactly one on a normal return, no abort behind or before a completion, and a completion only with the hash of the whole file |
| `TransferSession.ReceiveSession.Perform` | transfer-engine/src/transferSession.ts:197-395 | each await, message and signal does to the captured variables what the state machine says: the checkpoint and the rejection are those of `CheckpointRecords` and `DeclineIsAnswered` |
| `TransferSession.ReceiveSession.RunAll` | transfer-engine/src/transferSession.ts:197-395 | under any schedule the object emits at most one terminal event and nothing once settled, writes no chunk twice, and persists only digests of what is stored |
| `TransferRun.Connection.Perform` | transfer-engine/src/transferSession.ts:92-395 | the two objects on one channel do what the two-party state machine says, new sessions included |
| `TransferRun.Connection.RunAll` | transfer-engine/src/transferSession.ts:92-395 | under any schedule of both objects, deliveries, failures and new sessions: a completed receiver has the bytes being sent on disk, a completed sender was verified, an abort of the sender excludes both, and what is left can be resumed from |
| `Chunking.TotalChunksLeast` | transfer-engine/src/chunking.ts:21-23 | the chunk count is the least number of chunks that holds the file |
| `Chunking.BoundsChain` | transfer-engine/src/chunking.ts:42-46 | consecutive chunks meet without gap or overlap, the last ends at the file size, none is empty |
| `Chunking.ChunksPartition` | transfer-engine/src/chunking.ts:42-46 | every byte of the file lies in exactly one chunk |
| `Chunking.BytesInIsSizeIffAllIn` | transfer-engine/src/transferSession.ts:301-309 | the reported byte count reaches the file size exactly when every chunk is in |
| `Chunking.ChunksConcat` | transfer-engine/src/chunking.ts:48-51 | reading all chunks and gluing them together gives the file |
| `Protocol.ProgressReportsMonotone` | transfer-engine/src/transferSession.ts:149-158 | reported bytes never decrease and reach the size exactly on the last chunk |
| `ChunkFrame.FrameRoundTrip` | transfer-engine/src/messageBus.ts:76-86 | decoding an encoded frame gives the payload and the index modulo 2^32; the round trip is exact iff the index fits |
| `ChunkFrame.FrameIsEncoding` | transfer-engine/src/messageBus.ts:83-86 | every frame that decodes is the encoding of what it decodes to |
| `ChunkFrame.EncodeChunkFrame` | transfer-engine/src/messageBus.ts:76-81 | the buffer filled in place is the big-endian index followed by the payload |
| `Backpressure.GateRunInv` | transfer-engine/src/messageBus.ts:24-31 | a waiter is enlisted only while the buffer is above the low mark; the gate is open only below the high one |
| `Backpressure.BufferBound` | transfer-engine/src/messageBus.ts:64-67 | behind every chunk sent the buffer is below the high mark plus that frame |
| `Backpressure.NoWaiterStranded` | transfer-engine/src/messageBus.ts:27-31 | however the channel drains to the low mark, exactly the enlisted waiters are woken, in order, and none is left |
| `Backpressure.GateConserves` | transfer-engine/src/messageBus.ts:24-67 | in every run every byte sent has been taken by the network or is in the buffer, and every wait that found the buffer full has been woken or is enlisted, in the order in which they came |
| `Backpressure.MessageBus.WaitForBufferDrain` | transfer-engine/src/messageBus.ts:64-67 | passes at once below the high mark, enlists otherwise |
| `Backpressure.MessageBus.OnBufferedAmountLow` | transfer-engine/src/messageBus.ts:27-31 | takes the whole waiter list, empties it and wakes each entry in order |
| `Backpressure.MessageBus.OnJson` | transfer-engine/src/messageBus.ts:56-59 | a handler is registered once, behind the earlier ones |
| `Backpressure.MessageBus.DispatchJson` | transfer-engine/src/messageBus.ts:32-47 | a message goes round the handlers, oldest registration first, skipping those an earlier one has unsubscribed; afterwards exactly the unsubscribed ones are gone |
| `Dispatch.MissedWasRemoved` | transfer-engine/src/messageBus.ts:32-47 | a registered handler misses a message only if one that was called unsubscribed it |
| `Dispatch.SelfRemovalSkipsNobody` | transfer-engine/src/transferSession.ts:31-48 | handlers that unsubscribe at most themselves take the message from nobody |
| `HashChain.Base64RoundTrip` | transfer-engine/src/hash.ts:13-18 | base64 text decodes to the bytes it was made of |
| `HashChain.ToBase64` | transfer-engine/src/hash.ts:13-18 | the loop over the bytes produces their base64 text |
| `HashChain.JoinRoundTrip` | transfer-engine/src/hash.ts:26-28 | digest lists of any length are recovered from their joined text, because no digest contains the separator |
| `HashChain.TextBytesReadBack` | transfer-engine/src/hash.ts:26-31 | the joined text is hashed byte for byte: one byte a character, from which the text is read back, so that different digest lists are different byte strings |
| `HashChain.FinalFileHash` | transfer-engine/src/hash.ts:34-42 | throws iff a digest is missing or there are more than an array holds, else is the hash over the digests in index order |
| `HashChain.FileHashDeterminesList` | transfer-engine/src/hash.ts:26-31 | equal file hashes iff equal digest lists, a collision on the joined text aside |
| `HashChain.FileHashDeterminesChunks` | transfer-engine/src/hash.ts:20-31 | equal file hashes iff equal chunk sequences, collisions on the inputs at hand aside |
| `Resume.ResumePointUnique` | transfer-engine/src/resume.ts:54-59 | the resume point is the only least missing index |
| `Resume.ResumeFromChunk` | transfer-engine/src/resume.ts:54-59 | the loop finds the least index not in the list |
| `Resume.MemoryResumeStore.Load` | transfer-engine/src/resume.ts:8-16 | hands out the entry itself iff it is at most an hour old, deletes it otherwise, leaves other files alone |
| `Resume.MemoryResumeStore.Save` | transfer-engine/src/resume.ts:18-20 | replaces the entry of this file, stamped with the time, holding the digest object of the session by reference |
| `Resume.MemoryResumeStore.SaveThenRecord` | transfer-engine/src/resume.ts:18-20 | a digest recorded after a checkpoint is in the stored entry at once, though its index is not |
| `Resume.LocalStorageResumeStore.Load` | transfer-engine/src/resume.ts:33-42 | the same over prefixed keys of a shared storage |
| `DiskWriters.PositionalReassembly` | transfer-engine/src/diskWriters/tauriFsWriter.ts:30-34 | writing every chunk at its position, in any order and with repeats, makes the file begin with the source; it is the source and nothing more iff it was not longer and nothing was written beyond the last chunk |
| `DiskWriters.KeyedReassembly` | transfer-engine/src/diskWriters/memoryWriter.ts:14-37 | the same writes, kept by index and glued in index order, give the source |
| `DiskWriters.ChunkWriteIsKeyed` | transfer-engine/src/diskWriters/tauriFsWriter.ts:30-34 | a chunk-sized positional write changes its own chunk of the file and no other, so the file refines the store keyed by index |
| `DiskWriters.FailedWriteIsKeyed` | transfer-engine/src/diskWriters/tauriFsWriter.ts:30-34 | a write that fails half-way spoils no chunk but its own |
| `DiskWriters.HeldChunksAreTheSource` | transfer-engine/src/diskWriters/tauriFsWriter.ts:30-44 | a file that holds every chunk of the source at its place begins with the source |
| `DiskWriters.TauriFsWriter.WriteChunk` | transfer-engine/src/diskWriters/tauriFsWriter.ts:30-34 | fails iff not open or the handle rejects; either way some first part of the chunk is in the file, whose length nobody looks at; a whole write that resolves is appended to the history of the file |
| `DiskWriters.TauriFsWriter.Abort` | transfer-engine/src/diskWriters/tauriFsWriter.ts:41-44 | closes the handle and keeps every byte |
| `DiskWriters.MemoryDiskWriter.Assemble` | transfer-engine/src/diskWriters/memoryWriter.ts:26-37 | throws iff not opened, a chunk is missing or the chunks overflow the size; else is the chunks in index order, padded with zeros |
| `DiskWriters.MemoryDiskWriter.WriteChunk` | transfer-engine/src/diskWriters/memoryWriter.ts:14-16 | the last write of an index wins |
| `DiscardingWriters.FinalizedIsSourceIff` | transfer-engine/src/diskWriters/indexedDbWriter.ts:66-104 | the exact condition for writers whose abort discards bytes: in a session without a discard, what the writer finalizes is the bytes being sent iff it still had, when the resume entry was loaded, the chunks the entry names |
| `DiscardingWriters.FinalizedIsSourceUnlessDiscarded` | transfer-engine/src/diskWriters/fileSystemAccessWriter.ts:20-44 | through any number of sessions, with interrupted writes and a source that may change: if no abort or finalize, and for a writer that commits on close no unclosed session, lies behind the last session that found no entry alive, what is finalized is the bytes being sent |
| `DiscardingWriters.RecordKeptUnlessDiscarded` | transfer-engine/src/diskWriters/indexedDbWriter.ts:90-104 | under the same condition every chunk on record, loaded or still to be loaded, is with the writer after every step |
| `DiscardingWriters.AliveEntryDeliversNothing` | transfer-engine/src/transferSession.ts:362-388 | a failing input: a session of one chunk aborted behind its checkpoint; the next session matches the file hash and tells the sender so, over a writer that has nothing |
| `ViewConvergence.ViewsConverge` | coordinator/src/server.ts:104-193 | view convergence: in every reachable state, for the i-th entry of the registry, if its socket is open at both ends and current: folding the undelivered messages over the peers its client shows gives every other entry of the registry, once each and in the order of the registry |
| `ViewConvergence.QuietViewIsTheRegistry` | web/src/lib/coordinatorClient.ts:141-152 | with nothing on its way, what the client shows is every other entry of the registry, once each and in order |
| `ViewConvergence.RunsKeepSystem` | web/src/lib/coordinatorClient.ts:57-196 | the invariant of server, sockets and clients through connects, retries, timers, disconnects, late events, sweeps and failures |
| `ViewConvergence.ServerKeepsViews` | coordinator/src/server.ts:99-193 | whatever the clients believe, no handler of the server and no sweep spoils the agreement of belief and undelivered messages with the registry |
| `CoordinationRuns.ServerRuns` | coordinator/src/server.ts:95-193 | in every run of the whole the coordinator is in the state of a run of its own, on the events that have reached it |
| `CoordinationRuns.ClientRuns` | web/src/lib/coordinatorClient.ts:57-196 | and each client in that of its own, on what its host, its timers and its sockets have done to it |
| `CoordinationRuns.ShownAreAlive` | coordinator/src/server.ts:187-193 | in every reachable state of the whole, with sweeps on time, a registered client that has read what is on its way shows exactly the other entries of the registry, and each of them has been heard of within the last 20000 ms |
| `CoordinationRuns.SignalsInTheWhole` | coordinator/src/server.ts:133-140 | in every reachable state of the whole a signal from one listed device for another is put on the socket of that one alone, in the name of the device of the client that owns the sending connection |
| `CoordinationPaths.OpenedSocketRegisters` | web/src/lib/coordinatorClient.ts:117-131 | in every reachable state a current socket that opens registers its device: once the server has taken its first message the device is listed on this connection, heard of now, and everybody listed with an open socket is sent the list of the others |
| `CoordinationPaths.ClientSends` | web/src/lib/coordinatorClient.ts:73-79 | heartbeats and signals go out on the current socket while that is open, behind what is on its way, and otherwise not at all |
| `CoordinationPaths.ClientSaysGoodbye` | web/src/lib/coordinatorClient.ts:62-70 | a client that disconnects says goodbye on an open socket, closes it and has none |
| `CoordinationPaths.UplinkIsHandled` | coordinator/src/server.ts:99-151 | the server takes the oldest message of a connection it hears, each kind as what it is |
| `CoordinationPaths.NewSocketShakesHands` | web/src/lib/coordinatorClient.ts:107-116 | a client that connects, retries or is woken by its timer gets a new socket, unless its host has hung up |
| `CoordinationPaths.SocketsGoForward` | web/src/lib/coordinatorClient.ts:107-167 | a socket never goes back to an earlier state, and nothing a client has sent on it is lost but to the server, from the front |
| `CoordinatorSafety.RunKeepsTables` | coordinator/src/server.ts:115-123 | when each connection registers one device, the connections of the registry are distinct and are exactly the keys of the socket table, after every event |
| `CoordinatorSafety.LateCloseIsHarmless` | coordinator/src/server.ts:153-170 | the close or error of a connection that has been replaced changes nothing |
| `CoordinatorSafety.CleanupNeedsOneDevice` | coordinator/src/server.ts:157-170 | a leaving connection leaves the two tables in step iff it had registered at most one device |
| `CoordinatorSafety.TwoDevicesOnOneConnection` | coordinator/src/server.ts:104-126 | two registers on one connection do list two devices on it |
| `CoordinatorSafety.BroadcastInforms` | coordinator/src/server.ts:172-177 | after a broadcast the last message of the i-th listed peer, if its socket is open, is the list of every other entry, once each and in order |
| `CoordinatorReplies.RegisterTells` | coordinator/src/server.ts:104-127 | an accepted register: everybody on the new list, the registering connection included, is sent the list of the others and nothing else; a connection the device was listed on before is sent nothing and is closed; nobody else is touched |
| `CoordinatorReplies.RegisterIsRejected` | coordinator/src/server.ts:105-108 | a register in a newer version is answered with the rejection, and that is all |
| `CoordinatorReplies.HeartbeatIsAcknowledged` | coordinator/src/server.ts:128-132 | a heartbeat is acknowledged to its connection and to nobody else |
| `CoordinatorReplies.SignalIsRelayed` | coordinator/src/server.ts:133-140 | a signal from a connection that has registered to a listed device with a socket is put on the connection of that device alone, if it is open, in the name of the sender; in every other case nothing changes |
| `CoordinatorReplies.SignalsCarryTheirSender` | coordinator/src/server.ts:133-140 | in every disciplined run the name is that of the device that registered on the sending connection |
| `CoordinatorReplies.LeavingIsAnnounced` | coordinator/src/server.ts:141-170 | a registered connection that unregisters, closes or fails: everybody left is told who has gone and then sent the new list, and nobody else anything; an unregistered one leaves without a word |
| `CoordinatorReplies.SweepIsAnnounced` | coordinator/src/server.ts:187-193 | the swept are closed and off the table, and everybody left with an open connection hears of each of them |
| `CoordinatorReplies.NetworkAndClock` | coordinator/src/server.ts:91-98 | a new connection is open, silent and nameless, messages are delivered oldest first, and the clock waits for the sweep that is due |
| `CoordinatorSafety.SweepIsExact` | coordinator/src/server.ts:187-193 | a sweep removes exactly the peers last heard more than 15000 ms ago |
| `CoordinatorSafety.GoneInTwentySeconds` | coordinator/src/server.ts:74 | with sweeps at most 5000 ms apart, no peer is listed later than 20000 ms after it was last heard |
| `CoordinatorRoster.RegistryIsListing` | coordinator/src/server.ts:99-193 | the list, exactly, after any events: a device is listed iff it has registered and since then its connection has not left and no sweep has found it silent for more than 15000 ms; on the connection that registered it last, with the time it was last heard |
| `CoordinatorRoster.BeatingPeerStays` | coordinator/src/server.ts:128-193 | a listed peer whose connection stays and is not replaced, and that no sweep finds silent for more than 15000 ms, is listed after any number of events, with its last heartbeat |
| `PeerRegistry.PutContents` | coordinator/src/peerRegistry.ts:17-19 | registering replaces the entry of that device and keeps every other, one entry per device |
| `PeerRegistry.PutInPlace` | coordinator/src/peerRegistry.ts:17-19 | a device that registers again keeps its place and every other entry its own; a new one comes last |
| `PeerRegistry.WithoutConnectionContents` | coordinator/src/peerRegistry.ts:38-46 | removing a connection removes its entry and nothing else |
| `PeerRegistry.TouchKeepsLists` | coordinator/src/peerRegistry.ts:29-32 | a heartbeat changes no list anybody is sent |
| `PeerRegistry.TouchInPlace` | coordinator/src/peerRegistry.ts:29-32 | every entry keeps its place, and only the time of that device changes |
| `PeerRegistry.FindStale` | coordinator/src/peerRegistry.ts:49-51 | exactly the entries whose last heartbeat is older than the limit |
| `PeerRegistry.FindStaleInOrder` | coordinator/src/peerRegistry.ts:49-51 | each of them once, in the order of the registry |
| `PeerRegistry.ListExcept` | coordinator/src/peerRegistry.ts:53-57 | exactly the other devices are named |
| `PeerRegistry.ListExceptIsOthers` | coordinator/src/peerRegistry.ts:53-57 | without one listed device the list is every other entry, once each, in the order of the registry |
| `PeerRegistry.ListExceptUnlisted` | coordinator/src/peerRegistry.ts:53-57 | without a device that is not listed it is all of them, in order |
| `PeerRegistry.Registry.Register` | coordinator/src/peerRegistry.ts:17-19 | the new entry is found under its device and the rest is as before |
| `PeerRegistry.Registry.TouchHeartbeat` | coordinator/src/peerRegistry.ts:29-32 | only the heartbeat time of that device changes |
| `PeerRegistry.Registry.RemoveByConnection` | coordinator/src/peerRegistry.ts:38-46 | the first entry of the connection goes and its device is named, or nothing happens |
| `SignalingServer.SignalingServer.BroadcastPeerListToAll` | coordinator/src/server.ts:172-177 | the loop sends each listed peer its list on the socket the registry names |
| `SignalingServer.SignalingServer.BroadcastPeerLeftToAll` | coordinator/src/server.ts:179-181 | every socket of the table is told once, in whatever order |
| `SignalingServer.SignalingServer.CleanupConnection` | coordinator/src/server.ts:157-170 | socket and entry go; the departure and the new lists are sent only if there was an entry |
| `SignalingServer.SignalingServer.OnRegisterMessage` | coordinator/src/server.ts:104-127 | a newer protocol is rejected; a live registration elsewhere is replaced and its socket closed; everybody gets the new list |
| `SignalingServer.SignalingServer.OnHeartbeatMessage` | coordinator/src/server.ts:128-132 | the named device is touched and the sender acknowledged |
| `SignalingServer.SignalingServer.OnSignalMessage` | coordinator/src/server.ts:133-140 | a signal is relayed only from a registered connection to a registered device with a socket |
| `SignalingServer.SignalingServer.OnClose` | coordinator/src/server.ts:153-154 | a closed socket is cleaned up |
| `SignalingServer.SignalingServer.Sweep` | coordinator/src/server.ts:187-193 | every stale peer of the list taken at the start is closed and cleaned up in turn |
| `SignalingServer.SignalingServer.RunAll` | coordinator/src/server.ts:95-193 | under any schedule of one-device connections, messages, closes and timely sweeps the object keeps its tables in step and lists nobody for more than twenty seconds without a heartbeat |
| `CoordinatorClient.GivesUpAfterFive` | web/src/lib/coordinatorClient.ts:169-189 | n sockets in a row that never open arm delays of 500, 1000, 2000, 4000 and 8000 ms, each up to a fifth shorter or longer, and the client is offline iff n exceeds 5 |
| `ViewConvergence.DelaysStayBelowTheCap` | web/src/lib/coordinatorClient.ts:178-189 | in every reachable state every armed reconnect timer of every client waits at least 400 ms and less than 9600 ms, below the cap |
| `CoordinatorClient.SupersededSocketIsInert` | web/src/lib/coordinatorClient.ts:112-116 | once another socket is current, no event of this one changes anything |
| `CoordinatorClient.CoordinatorClient.OnMessage` | web/src/lib/coordinatorClient.ts:133-157 | a list replaces the peers, a departure removes one, on the current socket only |
| `CoordinatorClient.CoordinatorClient.OnOpen` | web/src/lib/coordinatorClient.ts:117-131 | the current socket introduces the device and resets the attempts |
| `CoordinatorClient.CoordinatorClient.OnClose` | web/src/lib/coordinatorClient.ts:159-162 | only the current socket counts as a disconnect |
| `CoordinatorClient.CoordinatorClient.HandleDisconnect` | web/src/lib/coordinatorClient.ts:169-189 | the peers are forgotten unless stopped by hand; a timer with a jittered delay is armed or the client gives up |
| `CoordinatorClient.CoordinatorClient.Disconnect` | web/src/lib/coordinatorClient.ts:62-70 | an open socket is told goodbye, and no socket is current any more |
| `CoordinatorClient.CoordinatorClient.TimerFires` | web/src/lib/coordinatorClient.ts:186-188 | a timer opens a socket unless the client has been stopped |
| `CoordinatorClient.CoordinatorClient.Retry` | web/src/lib/coordinatorClient.ts:192-195 | a retry starts counting again and opens a socket |
| `CoordinatorClient.ShowsWhatItTook` | web/src/lib/coordinatorClient.ts:112-189 | after any calls, timers and socket events a client shows exactly the fold of the messages its sockets spoke while they were current, since the last loss of a current socket; its delays are bounded |
| `CoordinatorClient.DepartureTakesOne` | web/src/lib/coordinatorClient.ts:145-148 | of a list that names each device once a departure takes exactly the entry of its device, and the others keep their order |
| `ClientRuns.MessagesAreTaken` | web/src/lib/coordinatorClient.ts:133-157 | on the current socket a list is taken over as it is, a departure takes the one entry it names, and no other message changes what is shown |
| `ClientRuns.OpenedSocketGreets` | web/src/lib/coordinatorClient.ts:117-131 | a current socket that opens puts the client online, clears the count of failures and sends exactly the introduction |
| `ClientRuns.LostSocketIsRetried` | web/src/lib/coordinatorClient.ts:159-189 | the loss of the current socket clears the list and arms one more timer, with the backoff of that attempt up to a fifth shorter or longer; after the fifth the client is offline instead |
| `ClientRuns.TimerReconnects` | web/src/lib/coordinatorClient.ts:186-188 | the oldest timer that fires makes a new socket current, and does not when the host has hung up |
| `ClientRuns.HostReconnects` | web/src/lib/coordinatorClient.ts:57-60 | connect and retry make a new socket current; connect lifts a hang-up, retry clears the count of failures |
| `ClientRuns.HungUpStaysDown` | web/src/lib/coordinatorClient.ts:62-70 | once its host has disconnected, a client has no current socket, whatever old sockets and timers do, until the host calls again |
| `CoordinatorClient.CoordinatorClient.Perform` | web/src/lib/coordinatorClient.ts:57-195 | each call, timer and socket event does to the fields what the state machine says, and sends the greeting of a current socket or the goodbye, and nothing else |
| `CoordinatorClient.CoordinatorClient.RunAll` | web/src/lib/coordinatorClient.ts:57-195 | under any schedule the object shows that fold, with bounded delays |
| `Pairing.PairingLockstep` | web/src/lib/peerSession.ts:99-116 | for all PINs typed in: one message of a round in flight at most, the receiver at most one round ahead, at most three rounds, through only on the generated PIN, refused only after three wrong ones, and the same verdict on both sides |
| `Pairing.PairingIsShort` | web/src/lib/peerSession.ts:157-183 | pairing has at most ten steps that change anything |
| `Pairing.StuckMeansDone` | web/src/lib/peerSession.ts:99-116 | with nothing in flight and nobody prompted, both sides have their verdict |
| `Pairing.DoneIffStoresAgree` | web/src/lib/peerSession.ts:157-183 | both sides get done iff their stores agree on whether pairing is needed |
| `Pairing.OneSidedTrustHangs` | web/src/lib/peerSession.ts:99-108 | the side that does not trust a peer that trusts it waits for ever |
| `Pairing.PairingSession.Pair` | web/src/lib/peerSession.ts:104-110 | the loops as they run: both sides go through iff one of the first three PINs is the generated one |
| `Pairing.PairingSession.ReceiverTakes` | web/src/lib/peerSession.ts:172-176 | a PIN is compared, answered and counted; the loop ends on a match or after three |
| `Pairing.PairingSession.SenderTakes` | web/src/lib/peerSession.ts:108-115 | the answer is counted; the loop ends on a match or after three |
| `PairingStores.TrustRunsOut` | transfer-engine/src/pairing.ts:29-37 | trust only ever runs out with time, and asking changes no answer |
| `PairingStores.MemoryPairingStore.IsTrusted` | transfer-engine/src/pairing.ts:29-37 | yes iff trusted at most 24 hours ago; an expired entry is deleted, others are left alone |
| `PairingStores.MemoryPairingStore.Trust` | transfer-engine/src/pairing.ts:39-41 | from now on exactly this device is trusted for 24 hours more |
| `PairingStores.LocalStoragePairingStore.IsTrusted` | transfer-engine/src/pairing.ts:50-59 | the same over prefixed keys of a shared storage |
| `PairingStores.KeysAreDistinct` | transfer-engine/src/pairing.ts:44-59 | different devices have different keys |
| `ElectionSafety.OneServerOneFailover` | coordinator/src/election.ts:60-138 | over every interleaving of mDNS events with the awaits: at most one failover in flight, the server up at most once and exactly when coordinating, the last notified host is the current one, no notification repeats the one before |
| `ElectionSafety.CoordinatorIsFrozen` | coordinator/src/election.ts:108-138 | a coordinator stays one: role, epoch and host are frozen whatever happens |
| `ElectionSafety.RoleCheckNeverFires` | coordinator/src/election.ts:124 | a failover in flight means this instance is a client |
| `ElectionSafety.FailoverRaisesEpoch` | coordinator/src/election.ts:123-134 | a failover that wins announces the epoch after the one known when its delay ran out, whatever happened while it was binding |
| `ElectionStory.ElectionIsTheStory` | coordinator/src/election.ts:49-138 | over every interleaving of mDNS events, probes, binds and delays the closure is a three-chapter story told from the events alone: it starts up, follows with at most one failover, coordinates for good; its role, epoch, tracked service, failovers and servers are those of the story, and the user interface is told every change of the host behind the startup, once and in order, and nothing else |
| `ElectionStory.DownStartsFailoverIff` | coordinator/src/election.ts:114-118 | for a watching client with no failover in flight a service going down starts one iff nothing is tracked or the tracked port is that one, and otherwise changes nothing |
| `ElectionStory.FollowedServiceGoesDown` | coordinator/src/election.ts:114-138 | over a run: the tracked service goes down, the delay passes, the bind is won, whatever happens in between; then this instance coordinates, with the epoch after the one known when the delay ran out, and the user interface has been told localhost |
| `ElectionSafety.ElectionSession.OnUp` | coordinator/src/election.ts:108-113 | a client tracks what comes up and tells the host if it changed |
| `ElectionSafety.ElectionSession.OnDown` | coordinator/src/election.ts:114-118 | a failover starts unless coordinating, already failing over, or another port went down |
| `ElectionSafety.ElectionSession.AfterBind` | coordinator/src/election.ts:125-134 | a won bind makes a coordinator and ends the failover, a lost one waits |
| `ElectionSafety.ElectionSession.AfterReprobe` | coordinator/src/election.ts:128-137 | what the second probe finds is tracked, the host told, the failover over |
| `ElectionSafety.ElectionSession.StartupProbe` | coordinator/src/election.ts:87-104 | the first and second probe of the startup |
| `ElectionSafety.ElectionSession.Notify` | coordinator/src/election.ts:65-70 | tells the host iff it differs from what was last told |
| `ElectionSafety.ElectionSession.RunAll` | coordinator/src/election.ts:49-138 | under any schedule the object is what the story of its events says, has at most one failover in flight and one server, and has told the user interface every change of the host, once and in order |
| `IceCandidates.CandidatesAreConserved` | transfer-engine/src/connection.ts:51-77 | for every interleaving: each candidate heard is buffered or was passed on, as often as heard; none was passed before a remote description was set; none is left buffered once a drain that was not rejected has finished |
| `CandidatePaths.ReceivedIsHeard` | transfer-engine/src/connection.ts:46-84 | what a session has received are the candidates heard before the channel opened, in order, and it listens until then |
| `CandidatePaths.QuietMeansPassedOn` | transfer-engine/src/connection.ts:51-77 | once a description has been set and no call is suspended any more, exactly the candidates heard before the channel opened have been passed on, as often as heard, and without an overtaking in the order heard, unless a candidate shifted by a drain was rejected |
| `CandidatePaths.FailedIffCutShort` | transfer-engine/src/connection.ts:72-77 | the exception is exactly that a drain had a candidate rejected |
| `CandidatePaths.RestIsReached` | transfer-engine/src/connection.ts:51-77 | from every state, with nothing rejected, at most as many resumptions as there are calls suspended and candidates buffered lead to rest |
| `IceCandidates.OrderKeptIffNoOvertake` | transfer-engine/src/connection.ts:51-77 | for every interleaving in which no candidate is heard twice: the candidates passed on, with those still buffered behind them, are in the order heard iff none was heard after the description had been set and before the buffer was empty |
| `IceCandidates.PassedInOrderIffNoneOvertaken` | transfer-engine/src/connection.ts:51-77 | the same for those passed on alone, whatever is buffered: they are in the order heard iff no candidate was passed on out of the buffer after one heard later had overtaken it |
| `IceCandidates.CutShortDrainKeepsPassedInOrder` | transfer-engine/src/connection.ts:63-76 | an input between the two: after a drain cut short by a rejection a later candidate overtakes the buffered one, and what is passed on is in order |
| `IceCandidates.DrainCanBeOvertaken` | transfer-engine/src/connection.ts:63-76 | a failing input for the order: a run in which a later candidate overtakes a buffered one |
| `IceCandidates.ConnectSession.OnCandidate` | transfer-engine/src/connection.ts:63-69 | a candidate is passed on once the description is set, buffered before |
| `IceCandidates.ConnectSession.DrainAll` | transfer-engine/src/connection.ts:72-77 | a drain that nothing interrupts passes the whole buffer on, oldest first |
| `IceCandidates.ConnectSession.RunAll` | transfer-engine/src/connection.ts:46-77 | under any schedule the object conserves the candidates, passes none too early, keeps their order without an overtaking, and passes them on in order iff none is passed on after it was overtaken |

## Left out

- I/O and foreign code: WebSocket, TLS and HTTP servers, mDNS, the internals of RTCPeerConnection, IndexedDB, the File System Access API, Electron, auto-update, certificates. Channels, clocks and stores stand for them.
- The user interface, QR codes, discovery and identity: presentation and browser storage.
- coordinator/src/network.ts and the JSON parsing of coordinator/src/protocol.ts: one-branch facts without state.
- computeFileId, file names, MIME types, abort reasons, totalBytes in progress events: carried along, never computed with. All messages of the model belong to one file id; what the handlers ignore is one message, Other.
- Awaits that only yield to the microtask queue (an already resolved promise) are no steps of their own: nothing but other microtasks could come in between.
- sendJson on a channel that has closed throws; in the model a send always reaches the queue, and what is never delivered stands for it.
- Sessions that overlap on one file id, and I/O still under way when the next session begins: sessions follow one another, an interrupted write leaving anything in its own slot.
- Writers whose abort discards bytes (IndexedDbWriter, FileSystemAccessWriter), outside DiscardingWriters: the other theorems over several sessions are for a writer that keeps them and reopens the same file. Frames are chunk-sized there, and what finalize does with a chunk that is missing is not modelled: the one rejects, the other commits the file without it.
- PositionalSession.CompleteFileBeginsWithSource: a write that resolves wrote its whole chunk, the condition of RecordKeptIffWhole.
- HonestOutcome.HonestRunsSucceed: for files of fewer than 2^32 chunks, the only ones the code can transfer, and loaded chunks that are the source's; HonestRunVerifiesIff is the exact condition.
- UnfailingRun.UnfailingRunsEnd: for files of fewer than 2^32 chunks (OversizedRunsStall is what happens to the others) and runs without failures; a failure leaves the peer to its timeout, which is a failure of its own.
- Limits of an engine rather than of the language: the memory for the digests, the length of a string and the size of a Set can be exhausted by files of fewer chunks.
- HonestOutcome.HonestOutcomeIffStoredIsSource: the clock reading at the one load is a parameter; checkpoints are stamped with any time.
- ReceiverSafety.RunKeepsDurable: the disk is a store keyed by chunk index; over a positional file the same is promised for frames no longer than a chunk only (PositionalRecord), because a longer one spoils its neighbour. Sessions of one file id are taken to use one chunk size there, as buildFileMeta does.
- The 30 s timeout of waitForControl and the human behind confirm: a failure, or an answer, at any time.
- Agreement of both outcomes when the receiver cancels close to completion: the verdict is sent before the writer is finalized, so only the one-way implications hold.
- Floating-point rounding: of Math.ceil above 2^53 bytes, sizes being unbounded integers, and of the jitter, a real number.
- The received indices are a set and not a sorted list; JSON texts of the stores are the values they stand for.
- A connection registering several device ids, beyond CleanupNeedsOneDevice (the laws of CoordinatorReplies are for one device a connection): the real client registers its one fixed id.
- The number of heartbeat timers of a client: heartbeats may be sent at any time.
- CoordinatorServer sockets are closed by their client or the network at any time; the shutdown of the whole server and coordinator-announce, which is only logged, are not modelled.
- Listeners' callbacks (onPeersChanged, onStateChanged, onSignal) and the payload of signals.
- advertiseCoordinator throwing after a successful bind: publishing a service is taken not to throw.
- More than one coordinator on the network: every machine binds its own addresses, so nothing arbitrates between hosts.
- generatePin and the request id: any PIN, one request. Pair messages sent while nobody listens are dropped, as in the code.
- Answers and local descriptions of connectToPeer, and the data channel itself: only the candidate buffer is modelled.
