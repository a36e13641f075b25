# Verification model of the Katzenpost Pigeonhole client and replica

This project models the parts of the vendored Katzenpost code on which data integrity and progress depend, and
proves what they promise. `dafny verify dfyconfig.toml` checks everything.

What is modelled, file by file:

- `Bytes`, `Wrappers`: byte strings, big-endian integers, the order of byte-string keys, optional values.
- `Trunnel`: the generated wire messages. The generated `Parse` and `encodeBinary` methods all walk a fixed chain of
  fields, so one schema (`Layout`) describes each message and the laws are proved for every layout; the fourteen
  layouts of the repository are constants. The loops of the generated code are methods. `WireFormats` lists the bytes of
  each of the fourteen.
- `Padding`: length-prefixed padding, with Go's 32-bit slice bound written out.
- `Chunking`: a payload cut for the geometry, padded, and put together again.
- `CopyStreamSpec`, `CopyStream`: the copy stream encoder, the element decoder and the envelope decoder, as functions
  on values and as the classes that update their buffers in place. `CopyStreamSound` is what the decoders make of any
  bytes at all.
- `BoxStore`: the replica's epoch-bucketed store over a byte-string key/value map, and the register it implements;
  `BoxRepeats` is what a second write of a box is told. `BoxLock` is the reference-counted per-box lock as a machine of thread steps, and `BoxWriters` puts writers,
  tombstones, the clock and the collector on top of it, one database access a step; `BoxCommits` adds that each thread
  takes effect once and in the order of real time, `BoxProgress` that none gets stuck, `BoxWindows` what each writer finds
  across epochs and collections, and `BoxOverlap` a run in which two writers of one box both store.
- `ArqSpec`, `ArqProofs`, `ArqTheorems`, `ArqReplies`, `ArqUnchanged`, `ArqWaiting`, `ArqTurns`, `ArqUntold`,
  `ArqHashes`, `ArqLimits`, `Arq`: the daemon's retransmission engine. `ArqSpec` is the state machine, `Arq` the daemon
  object with its maps, its timer queue and its shared message objects, whose methods are proved to take the steps of that
  machine. The others hold the invariants and the guarantees over every run; what every reply comes to, in the terms of
  the protocol, and what the other steps leave as it is; when a message waits in a queue, and how soon it is sent again;
  which operations end without their client being told; which messages a cancel by hash finds; and what a failed compose
  does to the guarantees. The two handlers that release the lock half way (a failed compose, a copy reply that says in
  progress) are two steps each.
- `SchedulerSpec`, `SchedulerFairness`, `SchedulerQueues`, `Scheduler`: the round-robin choice among connected clients,
  and the order in which each client's work is served.
- `RetryQueueSpec`, `RetryQueueLaws`, `RetryQueue`: the connector's retry queue, and when an entry leaves it.
- `Sampler`: rejection sampling of an index from 64-bit random values.
- `EnvelopeKeys`: the replica's per-epoch envelope keys and the epochs tried on a ciphertext.
- `Rlp`: the RLP encoder of the transaction sender, and a decoder written from Appendix B of the Ethereum Yellow Paper.

How the environment enters. Cryptography is an outcome: composing a packet succeeds or fails, a reply decrypts to one
of a few results, a key opens a ciphertext or does not. A random SURB ID and a new key are names not used before. The
clock is a parameter that never goes back, where the code reads the time more than once it is read more than once, and
the random reader is the sequence of values it delivers. RocksDB is a map with range deletion by the order of bytes.

What the proofs showed about the code, beyond its promises:

- A tracked message can come to be on no queue at all, and the steps that do this are known exactly (`SilencedIff`): its
  timer fires or its reply arrives while the client is away, the client goes while only its resend queue holds the
  message, or a copy command is answered with an envelope reply. No later timer, resend or session resume helps it, only
  a reply (`SilentUntilReached`); a resume keeps just the messages that are on the timer queue or at the egress worker
  (`ResumeKeepsIff`). With the client connected and replies of the right type it does not happen (`ConnectedStaysWaiting`).
- A client is never told that its operation is over in exactly these cases (`UntoldIff`, `UntoldForGood`): the reply cannot
  be decrypted or parsed, has the other form, or makes the unpadding panic; a resend comes up after the client has gone,
  or the cleanup does; the start cannot be composed and the client has gone; or somebody else cancels. Any connected client
  that knows the hash can do that, and the reply then goes to that client; a copy command cancelled through the handler
  for envelopes is answered with the reply type for envelopes (`CancelIsFinal`, `SomeCancelIsUntold`).
- A start over a hash in flight hides the earlier message from cancels by that hash, until its next resend, which writes
  the hash map entry back and hides the later message instead; the end of one removes the entry that leads to the other (`HiddenIff`,
  `RevealedIff`, `SomeRunHides`). The two maps stay inverse exactly when no start does that (`StartAgreesIff`).
- `rescheduleARQAfterComposeFailure` runs after the lock was released and does not look whether the message is still
  tracked, so an end in between, such as a cancel that was answered, is undone (`RevivingRun`); it happens in exactly the
  runs in which a reschedule comes after such an end (`RevivesIff`, `GaplessIff`). `scheduleCopyCommandPoll`, which does
  look, is free of this.
- The courier's repetition of an accepted write is accepted and changes nothing in the same epoch. In the next epoch this
  is so exactly if the first write was put under its own epoch and not only matched with the epoch before (`RepeatIff`):
  a repetition does not renew the box, so after another epoch a different write can take its place and the repetition is
  refused (`SecondRepetitionRefused`).
- A message with a nil union arm at any depth validates and is encoded, but is not read back (`ReadableIff`).
- Two overlapping writers of one box can both store. The collector takes no box lock, so when the clock moves on by one
  while a writer is between reading it and looking, what that writer would have found may be gone (`SomeRunStoresTwice`);
  nothing else leads to this (`PutsIff`). That collections change no answer (`WipesAreInvisible`) is true of operations one
  after the other, and does not carry over to overlapping ones.
- Messages longer than the parse bound are stored but cannot be read back (`StoredFate`, `PaddedMessageRoundTrip`), and
  extraction from a padded payload fails from 2^32 - 4 bytes on (`ExtractPadded`).
- `Prune` at epoch 0 wraps and destroys the current and the coming keys (`PruneKeepsWindowIff`).
- RLP strings of 56 bytes and more are not encoded correctly (`StringRoundTripIff`).
- A session token live on two connections at once breaks the rotation list (`ResumeOkIff`).

## Model

| member | source | states |
|---|---|---|
| `Trunnel.RoundTrip` | katzenpost/pigeonhole/trunnel_messages.go:27-159 | for every layout, a valid message with its union arms present is parsed back from its encoding followed by any bytes, and those bytes are returned untouched |
| `Trunnel.StrictPrefixTooShort` | katzenpost/pigeonhole/trunnel_messages.go:325-388 | every strict prefix of an encoding is answered with "data too short", never with a constraint violation or a shorter message |
| `Trunnel.Consumed` | katzenpost/pigeonhole/trunnel_messages.go:1044-1116 | re-encoding what Parse returned gives exactly the bytes it consumed, and what it returned is valid |
| `Trunnel.Extends` | katzenpost/pigeonhole/trunnel_messages.go:1288-1344 | once parsing has succeeded or violated a constraint, more input changes neither the result nor what was consumed |
| `Trunnel.PrefixFree` | katzenpost/pigeonhole/trunnel_messages.go:27-159 | one encoding is a prefix of another of the same layout if and only if the messages are equal |
| `Trunnel.ReadableIff` | katzenpost/pigeonhole/trunnel_messages.go:374-418 | a message that passes validate is parsed back from its encoding if and only if every union in it, at any depth, has its selected arm |
| `Trunnel.NilArmIsUnreadable` | katzenpost/pigeonhole/trunnel_messages.go:374-418 | the shortest instance: a union with a nil arm at the head of a layout encodes to its one tag byte, and parsing that byte asks for more data |
| `Trunnel.ParseTopRoundTrip` | katzenpost/pigeonhole/trunnel_messages.go:1087-1097 | the top-level parser returns a marshalled message exactly when its encoding is within the parse bound |
| `Trunnel.ReadMessage` | katzenpost/pigeonhole/trunnel_messages.go:27-111 | the loops of Parse, filling field by field while the cursor advances, compute the specified parse |
| `Trunnel.WriteMessage` | katzenpost/pigeonhole/trunnel_messages.go:125-159 | the appending loops of encodeBinary add exactly the specified encoding to the buffer |
| `Trunnel.MarshalBinary` | katzenpost/pigeonhole/trunnel_messages.go:161-204 | MarshalBinary returns the encoding if validate accepts the message and an error otherwise |
| `WireFormats.CourierEnvelopeBytes` | katzenpost/pigeonhole/trunnel_messages.go:125-159 | a valid courier envelope is encoded as the two replicas, two keys of 60 bytes, the reply index, the epoch in eight bytes, the sender key after its length in two and the ciphertext after its length in four, most significant byte first |
| `WireFormats.CourierEnvelopeReplyBytes` | katzenpost/pigeonhole/trunnel_messages.go:276-293 | its reply as the envelope hash, the reply index, the reply type, the payload after its length in four bytes, and the error code |
| `WireFormats.CopyCommandBytes` | katzenpost/pigeonhole/trunnel_messages.go:1186-1197 | a copy command as the write capability after its length in four bytes |
| `WireFormats.CopyCommandReplyBytes` | katzenpost/pigeonhole/trunnel_messages.go:1259-1269 | its reply as the status, the error code and the failed index in eight bytes |
| `WireFormats.CopyStreamElementBytes` | katzenpost/pigeonhole/trunnel_messages.go:1332-1344 | a copy stream element as the flags and the data after its length in four bytes |
| `WireFormats.ReplicaReadBytes` | katzenpost/pigeonhole/trunnel_messages.go:547-553 | a read as the box ID |
| `WireFormats.ReplicaWriteBytes` | katzenpost/pigeonhole/trunnel_messages.go:848-865 | a write as the box ID, the signature and the payload after its length in four bytes |
| `WireFormats.ReplicaReadReplyBytes` | katzenpost/pigeonhole/trunnel_messages.go:641-659 | a read reply as the error code and then what a write holds |
| `WireFormats.ReplicaWriteReplyBytes` | katzenpost/pigeonhole/trunnel_messages.go:1020-1024 | a write reply as the error code |
| `WireFormats.BoxBytes` | katzenpost/pigeonhole/trunnel_messages.go:1099-1116 | a stored box as the box ID, the payload after its length in four bytes, and the signature |
| `WireFormats.UnionBytes` | katzenpost/pigeonhole/trunnel_messages.go:374-388 | each of the four unions is a tag byte, 0 or 1, and the arm which that tag stands for |
| `Padding.ExtractPadded` | katzenpost/pigeonhole/helpers.go:83-128 | padding fits exactly up to the target size less four, always yields the target size, and extraction undoes it if and only if the message is shorter than 2^32 - 4 bytes |
| `Padding.ExtractIff` | katzenpost/pigeonhole/helpers.go:107-128 | from any payload, padded by this code or not, a message is extracted if and only if its prefix announces it and it is there, below 2^32 - 4 bytes; the payload is refused if and only if it is too short for its prefix or for what the prefix announces |
| `Padding.PaddedMessageRoundTrip` | katzenpost/pigeonhole/helpers.go:83-133 | a marshalled message survives padding, extraction and parsing exactly when it is within the parse bound |
| `Padding.CreatePaddedPayload` | katzenpost/pigeonhole/helpers.go:83-103 | the in-place filling of the zeroed buffer produces the specified padding or the size error |
| `Chunking.ChunksShape` | katzenpost/client/pigeonhole.go:388-401 | cutting loses no byte, no piece is empty and every piece but the last is full |
| `Chunking.ChunksCount` | katzenpost/client/pigeonhole.go:388-401 | there are exactly as many pieces as the size calls for |
| `Chunking.PayloadRoundTripIff` | katzenpost/client/pigeonhole.go:472-495 | a payload of any size, cut for the geometry and padded piece by piece, is recovered by extracting and joining if and only if the geometry's payload limit is below 2^32 or the payload is shorter than 2^32 - 4 bytes |
| `Chunking.ChunkPayload` | katzenpost/client/pigeonhole.go:388-401 | the loop over offsets computes the specified pieces, none for an empty payload |
| `CopyStreamSpec.EncodeStreamIsCut` | katzenpost/pigeonhole/copy_stream.go:82-201 | AddEnvelope calls followed by Flush, from any buffered state, emit exactly the one-shot cut of the framed bytes, and nothing for an empty stream |
| `CopyStreamSpec.CutShape` | katzenpost/pigeonhole/copy_stream.go:103-201 | a cut loses no byte, every element but the last carries exactly the chunk size, only the first has IsStart and only the last IsFinal |
| `CopyStreamSpec.PlainCutShape` | katzenpost/pigeonhole/copy_stream.go:207-247 | FlushWithoutFinal empties the buffer without losing a byte and never sets IsFinal |
| `CopyStreamSpec.ExtractInTwoSteps` | katzenpost/pigeonhole/copy_stream.go:106-139 | extracting, then extracting again after more bytes, equals one extraction of all the bytes |
| `CopyStreamSpec.ResumeEquivalence` | katzenpost/client/pigeonhole.go:637-742 | any number of calls that hand the buffer on through GetBuffer, a fresh encoder and SetBuffer keep all chunk data and final flags; the elements are those of one encoder if and only if each call that returned some suppressed the start exactly when an earlier call had returned some |
| `CopyStreamSpec.SegmentsJoin` | katzenpost/client/pigeonhole.go:553-578 | segments encoded by separate stateless calls join into one acceptable stream of all the envelopes, closed exactly when the last segment is not empty |
| `CopyStreamSpec.ScheduleIndependence` | katzenpost/pigeonhole/copy_stream.go:406-486 | for every byte stream that one decode at the end accepts, every interleaving of additions and decodes ending in a decode returns the same envelopes in total, without error, and ends in the same state |
| `CopyStreamSpec.PrefixDecodes` | katzenpost/pigeonhole/copy_stream.go:326-357 | on every prefix of a well-formed stream no interleaving errs, the envelopes returned are exactly those wholly inside the complete elements received, and the final flag is seen exactly when a complete final element was |
| `CopyStreamSpec.WholeElementsMaximal` | katzenpost/pigeonhole/copy_stream.go:326-357 | the count used above is the largest number of whole elements in the first n bytes |
| `CopyStreamSpec.WholeFramesMaximal` | katzenpost/pigeonhole/copy_stream.go:449-483 | the count used above is the largest number of whole envelopes in the first n payload bytes |
| `CopyStreamSpec.CopyStreamRoundTrip` | katzenpost/pigeonhole/copy_stream.go:82-490 | for every non-empty list of valid envelopes, the emitted bytes, cut into boxes anywhere and decoded on any schedule, give back that list in order, report the final element, and leave nothing |
| `CopyStreamSpec.ChunksSurviveIff` | katzenpost/pigeonhole/copy_stream.go:106-139 | with more than one chunk buffered, every chunk taken out is emitted if and only if the chunk size fits the 32-bit length field; otherwise elements are skipped silently |
| `CopyStreamSpec.JoinedIsStream` | katzenpost/pigeonhole/copy_stream.go:124-136 | when every chunk fits, the marshalled elements concatenate to the stream the decoder is given |
| `CopyStreamSound.AvailableIff` | katzenpost/pigeonhole/copy_stream.go:326-357 | of any buffer an element is taken exactly if it is there and within the limit, with the data and the two flags on the wire, and refused exactly if its header announces more than the limit, whether or not the rest is there |
| `CopyStreamSound.DrainSound` | katzenpost/pigeonhole/copy_stream.go:425-441 | what the first loop takes from any buffer are whole elements on the wire, in order and within the limit, and it stops at the first that is too long or is not all there |
| `CopyStreamSound.FirstFrameIff` | katzenpost/pigeonhole/copy_stream.go:449-483 | a frame is taken exactly if it is whole, within the limit and the encoding of a valid envelope with nothing after it, and refused exactly if it is too long, or whole and no such encoding |
| `CopyStreamSound.UnframeSound` | katzenpost/pigeonhole/copy_stream.go:443-484 | the envelopes returned are those whose frames the buffer begins with, and the rest begins with a refused frame or with none that is whole |
| `CopyStreamSound.DecodeSound` | katzenpost/pigeonhole/copy_stream.go:423-487 | one call, on any content of the buffers, returns only envelopes that were framed in what it was given, and errs if and only if it comes to an element that is too long or, there being none, a frame that is refused |
| `CopyStream.CopyStreamEncoder.constructor` | katzenpost/pigeonhole/copy_stream.go:50-56 | a new encoder has an empty buffer, the geometry's chunk size, whatever that is, and the start flag pending; it is usable exactly for geometries above the overhead |
| `CopyStream.CopyStreamEncoder.SuppressStart` | katzenpost/pigeonhole/copy_stream.go:61-63 | only the pending start flag changes |
| `CopyStream.CopyStreamEncoder.AddEnvelope` | katzenpost/pigeonhole/copy_stream.go:82-101 | refuses a nil or invalid envelope without changing anything, else takes the specified step and emits its elements |
| `CopyStream.CopyStreamEncoder.ExtractElements` | katzenpost/pigeonhole/copy_stream.go:106-139 | the extraction loop equals its specification |
| `CopyStream.CopyStreamEncoder.Flush` | katzenpost/pigeonhole/copy_stream.go:145-201 | the flush loop and its final element equal their specification |
| `CopyStream.CopyStreamEncoder.FlushWithoutFinal` | katzenpost/pigeonhole/copy_stream.go:207-247 | the loop without a final element equals its specification |
| `CopyStream.CopyStreamEncoder.GetBuffer` | katzenpost/pigeonhole/copy_stream.go:262-270 | returns the buffered bytes |
| `CopyStream.CopyStreamEncoder.SetBuffer` | katzenpost/pigeonhole/copy_stream.go:280-288 | replaces the buffered bytes, and does nothing for a nil state |
| `CopyStream.CopyStreamDecoder.AddData` | katzenpost/pigeonhole/copy_stream.go:315-317 | appends to the buffer |
| `CopyStream.CopyStreamDecoder.DecodeAvailable` | katzenpost/pigeonhole/copy_stream.go:326-357 | returns an element and its rest, waits for more data, or rejects an oversized element, as specified, leaving the buffer alone unless an element was taken |
| `CopyStream.CopyStreamEnvelopeDecoder.AddBoxData` | katzenpost/pigeonhole/copy_stream.go:406-408 | appends to the element decoder's buffer only |
| `CopyStream.CopyStreamEnvelopeDecoder.DrainElements` | katzenpost/pigeonhole/copy_stream.go:425-441 | the first loop moves the payload of every complete element to the envelope buffer and notes a final element |
| `CopyStream.CopyStreamEnvelopeDecoder.TakeEnvelopes` | katzenpost/pigeonhole/copy_stream.go:443-484 | the second loop takes every complete envelope and stops at the first unacceptable one |
| `CopyStream.CopyStreamEnvelopeDecoder.DecodeEnvelopes` | katzenpost/pigeonhole/copy_stream.go:423-487 | the two loops together are the specified decode |
| `BoxStore.BoxKeyInjective` | katzenpost/replica/state.go:50-61 | two database keys are equal only for the same epoch and box |
| `BoxStore.RangeIsOldEpochs` | katzenpost/replica/state_gc.go:34-46 | the byte range from prefix 0 to the prefix of the cutoff holds exactly the keys of the epochs below the cutoff |
| `BoxStore.StoredFate` | katzenpost/replica/state.go:420-433 | a stored box is read back with its payload and signature, kept but unreadable, or not kept at all, depending on the payload's length alone |
| `BoxStore.LookupRefines` | katzenpost/replica/state.go:337-363 | a newest-first lookup over the kept epochs sees exactly the box's last put while that is at most one epoch old |
| `BoxStore.WriteRefines` | katzenpost/replica/state.go:395-433 | a write is stored, accepted because the box is the same, or rejected exactly as on the register, which makes the comparison on its own |
| `BoxStore.PutRefines` | katzenpost/replica/state.go:455-476 | a put becomes the box's last put and disturbs no other box |
| `BoxStore.WipeRefines` | katzenpost/replica/state_gc.go:25-50 | garbage collection leaves the register as it is |
| `BoxStore.RunRefines` | katzenpost/replica/state.go:325-479 | over every run of writes, tombstones, reads and collections with a nondecreasing epoch, the store gives the same answers as the register |
| `BoxStore.WipesAreInvisible` | katzenpost/replica/state_gc.go:25-50 | dropping all collections from a run changes no answer to any read or write |
| `BoxStore.Converges` | katzenpost/replica/state.go:366-479 | one write and its tombstones, delivered in any order and any number within two consecutive epochs, leave the last tombstone if there was one, else the write, else nothing |
| `BoxStore.ReplicasAgree` | katzenpost/replica/state.go:366-479 | two replicas, each with its own past but without the box, fed the same write and tombstone in different orders among different traffic answer a read alike |
| `BoxStore.TombstoneForgottenAfterWindow` | katzenpost/replica/state.go:63-71 | two epochs after a tombstone a late copy of the write brings the box back, so the window of the previous rows cannot be widened |
| `BoxStore.TryLookupIff` | katzenpost/replica/state.go:337-363 | a lookup fails exactly when the database fails to read under a kept epoch before anything was found, and otherwise finds what the lookup without faults finds |
| `BoxStore.FaultsChangeNothing` | katzenpost/replica/state.go:366-438 | a call that meets a database error reports it and leaves the database alone; every other call is the one without errors |
| `BoxRepeats.WriteAnswered` | katzenpost/replica/state.go:401-433 | a write of a box that can be read changes nothing and is accepted exactly if it brings the same payload and signature; one that cannot be read refuses it; else it is accepted, and read back if it is within the parse bound, and no other box reads differently |
| `BoxRepeats.RepeatedWrite` | katzenpost/replica/state.go:396-400 | after an accepted write, whatever happens to other boxes and whoever else writes this one, a second write in the same epoch changes nothing and is accepted exactly if it is the same, and in the next epoch too if the first was put under its own; tombstones for the box excepted |
| `BoxRepeats.RepeatIff` | katzenpost/replica/state.go:396-400 | in the next epoch the repetition changes nothing and is accepted, whatever happened in between, if and only if the first write was put under its own epoch and not found in the one before |
| `BoxRepeats.SecondRepetitionRefused` | katzenpost/replica/state.go:396-400 | the input: a write, its repetition one epoch later, another write one epoch after that, and the second repetition, which is refused |
| `BoxStore.State.StateHandleReplicaRead` | katzenpost/replica/state.go:325-363 | the loop over the kept epochs returns the specified read result, that the database is closed, or that it failed to read |
| `BoxStore.State.HandleReplicaWrite` | katzenpost/replica/state.go:366-438 | a closed or full database refuses and changes nothing, otherwise the check-and-put is the write that WriteAnswered and FaultsChangeNothing describe, database errors of either kind included |
| `BoxStore.State.HandleReplicaTombstone` | katzenpost/replica/state.go:443-479 | a tombstone is stored whether or not storage is full, and only a closed or failing database refuses it |
| `BoxStore.State.WipeStaleBoxes` | katzenpost/replica/state_gc.go:25-50 | deletes the specified range, nothing before epoch 2, and nothing when the deletion fails |
| `BoxLock.MoveKeepsInv` | katzenpost/replica/state.go:133-161 | every step of acquire and release keeps the invariant of the lock table |
| `BoxLock.InvExcludes` | katzenpost/replica/state.go:78-85 | contending threads share one lock object, at most one is in the critical section, the count is the number of threads between acquire and release, and an entry exists exactly while it is positive |
| `BoxWriters.MutualExclusion` | katzenpost/replica/state.go:126-161 | the previous row holds in every interleaving of any number of writers and tombstones |
| `BoxWriters.Linearizable` | katzenpost/replica/state.go:389-437 | in every interleaving the database is what the committed operations produce one at a time, each write got the answer it gets there, and every finished thread is in that sequence |
| `BoxCommits.CommitsIff` | katzenpost/replica/state.go:389-437 | in every interleaving a thread has an operation in that sequence if and only if it has decided on its answer, and never two |
| `BoxCommits.CommitsFromInside` | katzenpost/replica/state.go:389-437 | every operation in the sequence is that of a thread that has entered its critical section, with its request and the answer it will return |
| `BoxCommits.RealTimeOrder` | katzenpost/replica/state.go:389-437 | a thread that has finished before another arrives comes before it in the sequence |
| `BoxProgress.NoDeadlock` | katzenpost/replica/state.go:126-161 | in every reachable state in which some thread has not finished, some thread can take its next step |
| `BoxProgress.AllFinish` | katzenpost/replica/state.go:126-161 | from every reachable state the threads that are there take at most eleven steps each, however they are scheduled, and when none can take another one all have finished |
| `BoxWindows.EpochsInOrder` | katzenpost/replica/state.go:389-437 | in every interleaving the operations on one box take effect in the order of the epochs their threads read inside the lock |
| `BoxWindows.WritersSeeTheLast` | katzenpost/replica/state.go:389-437 | in every interleaving of writes, tombstones and collections a write finds the last thing stored of its box if that is at most one epoch old and no collection has erased it; it stores its own if and only if it finds nothing, and is accepted if and only if it finds nothing or the same |
| `BoxWindows.RefusedIff` | katzenpost/replica/state.go:413-420 | in every interleaving a write is accepted or told that the box exists, and the latter if and only if what was last stored of its box, at most one epoch before and not erased since, differs from what it brings or cannot be read back |
| `BoxWindows.SecondWriteAnswered` | katzenpost/replica/state.go:396-420 | of two writes of a box in every interleaving, the first of them put, the second in its epoch or the next and with no tombstone and no erasing collection between, the second is accepted if and only if it is the same |
| `BoxWindows.PutsIff` | katzenpost/replica/state.go:389-437 | in every interleaving a write is stored if and only if each box or tombstone stored before it under its own or the previous epoch has been erased since, by a collection of an epoch at least two later |
| `BoxWindows.BothStoredIff` | katzenpost/replica/state.go:389-437 | of two writes of a box under one or consecutive epochs, with no other operation on it in between, both are stored if and only if such a collection came between them |
| `BoxWindows.TombstoneStays` | katzenpost/replica/state.go:443-479 | in every interleaving a write of a buried box under the tombstone's or the next epoch is not stored, and accepted only if empty, unless such a collection came first |
| `BoxOverlap.SomeRunStoresTwice` | katzenpost/replica/state_gc.go:25-50 | a run from the start in which two overlapping writers of one box both store: the second has read the clock when it moves on, and the collector, which takes no box lock, removes the first one's box before the second looks |
| `BoxWindows.SameEpochWritesAgree` | katzenpost/replica/state.go:401-418 | two accepted writes of one box under one epoch, with no tombstone for it and no collection of a later epoch between them, carry the same payload and signature, also when the first was itself only a repetition |
| `ArqProofs.StartAgreesIff` | katzenpost/client/pigeonhole.go:1197-1232 | a start keeps the hash map the inverse of the SURB ID map if and only if its hash is not in flight |
| `ArqProofs.ReplyChanges` | katzenpost/client/pigeonhole.go:1428-1537 | every reply, in every state, either ends the operation with at most one reply, requeues it, moves it to a fresh SURB ID, or only takes it off the timer queue: with the client away, or for a reply type that its handler ignores |
| `ArqProofs.NextGood` | katzenpost/client/daemon.go:822-1174 | every step of every kind keeps all the invariants below, and unless it files an ended operation again, revives or answers no operation that is no longer tracked |
| `ArqTheorems.NeverGoesSilent` | katzenpost/client/daemon.go:822-1054 | after every run a tracked message has its current SURB ID in the timer queue, its owner's resend queue or egress if and only if its operation is not on record as silent; the ArqWaiting rows below say exactly which steps put it on that record and take it off |
| `ArqWaiting.SilencedIff` | katzenpost/client/daemon.go:862-888 | in every reachable state a waiting message loses its last place by exactly these steps: its timer fires or its reply arrives with the client away, the client goes while only its resend queue holds it, a reply its handler ignores, or the first half of a copy poll or of a failed compose |
| `ArqWaiting.WokenIff` | katzenpost/client/daemon.go:900-909 | a message without a place gets one again by exactly these steps: a reply that requeues or moves it, and the second halves |
| `ArqWaiting.WaitsUntilSilenced` | katzenpost/client/daemon.go:862-1054 | from every reachable state a waiting message still waits after every continuation without such a step for it, whatever else happens, resumed sessions included |
| `ArqWaiting.SilentUntilReached` | katzenpost/client/daemon.go:872-879 | the converse: a message that has no place, with no handler half done with it, has none for as long as no reply for it arrives, through every timer, resend, disconnect and resume |
| `ArqWaiting.ConnectedStaysWaiting` | katzenpost/client/daemon.go:853-888 | while the client stays connected and a copy command gets no envelope reply, the message is after every run waiting, or in the hands of a handler that is half done with it |
| `ArqWaiting.ResumeKeepsIff` | katzenpost/client/listener.go:525-563 | a session resume keeps a message waiting if and only if its timer is armed or it is at the egress worker |
| `ArqWaiting.SomeRunSilences` | katzenpost/client/daemon.go:872-879 | a run from the start: the client goes, the timer fires, the client comes back, and its tracked message is on no queue, and stays so until a reply for it arrives |
| `ArqWaiting.StartedWaits` | katzenpost/client/pigeonhole.go:1197-1232 | a composed start, before or after a resume, puts its message on its way |
| `ArqWaiting.ComposeFailureInHalves` | katzenpost/client/daemon.go:1022-1033 | the failed compose and the reschedule, with nothing in between, are the resend with a compose failure |
| `ArqWaiting.CopyPollInHalves` | katzenpost/client/pigeonhole.go:1557-1671 | the hand-over of a copy reply and the poll, with nothing in between, are the handling of that reply |
| `ArqTheorems.MapsAgree` | katzenpost/client/daemon.go:929-968 | after every run without a reused hash and without a revival the two maps are inverse to each other and equally large |
| `ArqTheorems.AtMostOneReply` | katzenpost/client/pigeonhole.go:1390-1401 | in every run without a revival no operation gets two replies, and an answered operation is no longer tracked |
| `ArqTheorems.SuccessNeedsEvidence` | katzenpost/client/pigeonhole.go:1497-1531 | success is reported for a read, or a write that does not accept an existing box, only right after a payload that decrypted without error; only default writes complete on an ACK; a read delivers exactly what the padding held; the report goes to the operation's own client in its own form |
| `ArqTheorems.NoReplyIgnored` | katzenpost/client/arq.go:66-138 | in every run without a revival no tracked message is in the terminal state, so the Ignore action is unreachable |
| `ArqReplies.AckSettles` | katzenpost/client/arq.go:78-115 | with its client connected, an acknowledgement completes a write that accepts an existing box, as a success; any other operation, and a second acknowledgement, keeps its message, in the state that waits for the payload, last in the resend queue or on the timer if that is full |
| `ArqReplies.PayloadSettles` | katzenpost/client/pigeonhole.go:1890-1972 | a payload, before the acknowledgement or after it, is a success for a write, and for a read brings what the padding holds, a tombstone or an internal error; a missing box is asked for again unless the read said not to, an existing one is a success unless the write said not to, and every other failure ends the operation under its own code |
| `ArqReplies.CourierErrorEnds` | katzenpost/client/pigeonhole.go:1409-1426 | a courier error ends the operation with that error under the client's name for it, in any state |
| `ArqReplies.TerminalIgnores` | katzenpost/client/arq.go:117-124 | only a message that was filed again after its end can be in the terminal state, and a reply without a courier error leaves it and the log as they are |
| `ArqReplies.CopySettles` | katzenpost/client/pigeonhole.go:1577-1620 | a copy command is reported a success on status 0, a failure with the replica's code on 2 and an internal error on anything above; on 1 nothing is reported, and its message is tracked under a fresh SURB ID with its timer armed |
| `ArqReplies.SuccessIff` | katzenpost/client/pigeonhole.go:1428-1621 | over all replies, a connected client is told of success, with these bytes, if and only if the reply warrants it by its numbers, its plaintext and the message's state |
| `ArqReplies.EverySuccessIsWarranted` | katzenpost/client/pigeonhole.go:1428-1621 | after every run, each success in the log came with a reply that warranted it for the message its operation had at that moment, the client being connected |
| `ArqReplies.CopySuccessIsSent` | katzenpost/client/pigeonhole.go:1585-1597 | after every run, each copy command reported a success had been sent a reply of status 0 |
| `ArqUnchanged.OnlyRepliesChangeState` | katzenpost/client/daemon.go:938-968 | over all steps but replies, a message that stays tracked keeps its operation and its state, through timers, resends, failed composes and polls |
| `ArqUnchanged.StartTracks` | katzenpost/client/pigeonhole.go:1197-1232 | a composed start tracks exactly the operation asked for, waiting for its acknowledgement, with its timer armed and its hash leading to it |
| `ArqUnchanged.CleanupForgets` | katzenpost/client/daemon.go:1099-1166 | a cleanup forgets each of the client's messages with its hash and its timer, counts each as collected, and leaves every other message and its timer as they are |
| `ArqUnchanged.CancelForgets` | katzenpost/client/pigeonhole.go:1311-1370 | a cancel removes the hash, the message it leads to and that message's timer, and nothing else; a hash that leads nowhere is removed without a word to anyone |
| `ArqTheorems.SurbsConserved` | katzenpost/client/daemon.go:945-968 | after every run the tracked SURB IDs number those created less those rotated, delivered, collected and removed without a metric, plus one for each revival, which counts an ID out that was not in |
| `ArqTheorems.NothingRevived` | katzenpost/client/pigeonhole.go:1632-1671 | an operation no longer tracked is never tracked or answered again, also when a copy poll follows a cancel that came after the reply was handed over, in every continuation without a reschedule in the gap |
| `ArqTheorems.CancelFindsLiveMessage` | katzenpost/client/pigeonhole.go:1311-1370 | a cancel by hash, by any connected client through either handler, untracks the live message, stops its timer and touches no other message; the one reply goes to the client that cancelled, in the form of the handler it used |
| `ArqTheorems.CancelIsFinal` | katzenpost/client/pigeonhole.go:1311-1370 | whatever follows a cancel, the operation stays untracked, and its client is ever sent a reply of its own form if and only if it was that client which cancelled, through the handler for its kind of operation |
| `ArqLimits.CanAlwaysResend` | katzenpost/client/daemon.go:845-909 | from every reachable state the daemon's own steps alone can send each message again under a fresh SURB ID that waits anywhere, or that a handler is half done with, given a connected client and a resend queue with room for at least one |
| `ArqTurns.ResentInTurn` | katzenpost/client/listener.go:429-470 | in every schedule, whatever else it contains, a message that has had more turns than it was away from its resend is no longer under its SURB ID, if its client stays connected and composing it succeeds; a turn is the egress worker taking it, the scheduler picking its client, or its timer firing while the queue has room |
| `ArqTurns.ResentWithin` | katzenpost/client/daemon.go:845-909 | from every reachable state the capacity of a resend queue and two more turns are enough |
| `ArqUntold.ReplyUnansweredIff` | katzenpost/client/pigeonhole.go:1435-1533 | a reply ends an operation without answering it if and only if it does not decrypt, does not parse or has the copy form, or it is a read's plaintext on which the slice bound of the padding wraps and extraction panics |
| `ArqUntold.AbandonedIff` | katzenpost/client/daemon.go:995-1010 | over all steps a tracked operation ends without a reply to anyone in exactly these ways: such a reply, a resend after the client has gone, and the cleanup |
| `ArqUntold.AbandonedForGood` | katzenpost/client/pigeonhole.go:1435-1472 | an operation that ended without a reply is answered in no continuation without a revival |
| `ArqUntold.UntoldIff` | katzenpost/client/pigeonhole.go:72-78 | over all steps and operations: one is over without its own client being told, in its own form, if and only if it was abandoned in such a way, or cancelled by another client or through the other handler, or could not be composed at its start after its client had gone |
| `ArqUntold.UntoldForGood` | katzenpost/client/pigeonhole.go:72-78 | and then its client is told in no continuation without a revival |
| `ArqUntold.SomeRunAbandons` | katzenpost/client/pigeonhole.go:1435-1472 | a run from the start: an operation's reply does not decrypt, and the operation is over and unanswered in every continuation without a revival |
| `ArqUntold.SomeCancelIsUntold` | katzenpost/client/pigeonhole.go:1311-1370 | a run from the start in which another client cancels: the operation is over, and its own client is told so in no continuation without a revival |
| `ArqHashes.CancelEndsIff` | katzenpost/client/pigeonhole.go:1311-1370 | a cancel by a message's hash ends its operation if and only if the hash map leads from the hash to the message |
| `ArqHashes.HiddenIff` | katzenpost/client/pigeonhole.go:1218-1222 | over all reachable states and steps, a message to which its hash leads is hidden, while tracked, by exactly these steps: a composed start over its hash, and another operation with its hash being refiled under a new SURB ID or coming to its end |
| `ArqHashes.RevealedIff` | katzenpost/client/daemon.go:957-959 | a hidden message is found by its hash again after exactly the steps that file it under a new SURB ID: its resend, its poll, its reschedule |
| `ArqHashes.FoundUntilHidden` | katzenpost/client/pigeonhole.go:1311-1370 | from every reachable state a message to which its hash leads is found after every continuation without a hiding step for it and without a revival |
| `ArqHashes.SomeRunHides` | katzenpost/client/daemon.go:938-968 | a run from the start: a second start over a hash hides the first operation, and the first one's next resend hides the second |
| `ArqLimits.RevivesIff` | katzenpost/client/daemon.go:822-850 | over all reachable states and all steps, a step tracks an ended operation again if and only if it is a reschedule after a failed compose and the operation came to its end since the compose failed |
| `ArqLimits.GaplessIff` | katzenpost/client/daemon.go:822-850 | a run has no revival if and only if none of its reschedules comes after such an end, so the rows that ask for no revival hold for exactly these runs |
| `ArqLimits.RevivingRun` | katzenpost/client/daemon.go:1022-1033 | from every state with a message at the egress worker: its compose fails, it is cancelled and the cancel is answered, it is rescheduled, and the cancelled operation is tracked again |
| `ArqLimits.SomeRunRevives` | katzenpost/client/daemon.go:822-850 | such a state is reached from the start, so some run ends with an operation both answered and tracked |
| `Arq.Daemon.ArqSend` | katzenpost/client/pigeonhole.go:1197-1232 | stores and schedules nothing when composing fails, else files the message under a fresh SURB ID and arms its timer |
| `Arq.Daemon.StartResending` | katzenpost/client/pigeonhole.go:1254-1298 | starting an operation is the start step; when composing fails nothing is kept, and the client is sent an internal error if it is still connected |
| `Arq.Daemon.EnqueueResend` | katzenpost/client/daemon.go:862-888 | hands the SURB ID to its owner's resend queue, arms the timer when that is full, and drops it when it is unknown or its owner is gone |
| `Arq.Daemon.ScheduleARQFollowUp` | katzenpost/client/daemon.go:900-909 | the follow-up goes through the resend queue under the current SURB ID |
| `Arq.Daemon.DropARQMessage` | katzenpost/client/daemon.go:915-927 | removes the message from both maps and counts it as collected |
| `Arq.Daemon.RotateARQSurbIDLocked` | katzenpost/client/daemon.go:938-968 | moves the message to the new SURB ID in both maps, counts a retransmission, and counts one ID out and one in |
| `Arq.Daemon.RescheduleARQAfterComposeFailure` | katzenpost/client/daemon.go:822-850 | files the message, tracked or not, under a fresh placeholder and arms its timer, as the reschedule step does |
| `Arq.Daemon.ArqDoResend` | katzenpost/client/daemon.go:970-1054 | a resend rotates, reschedules, cleans up or does nothing exactly as the resend step, its compose failure in one piece |
| `Arq.Daemon.HandleReply` | katzenpost/client/daemon.go:488-532 | the legacy replies, the decoys and the tracked messages are asked in this order; a legacy reply that decrypts goes to its client, a decoy is dropped, and for a tracked message the timer is cancelled and the reply step taken |
| `Arq.Daemon.HandlePigeonholeARQReply` | katzenpost/client/pigeonhole.go:1428-1537 | drops unreadable and foreign replies and dispatches the others by message type |
| `Arq.Daemon.HandleEnvelopeReply` | katzenpost/client/pigeonhole.go:1478-1537 | carries out the transition of the state machine, whose outcomes are AckSettles, PayloadSettles, CourierErrorEnds and TerminalIgnores |
| `Arq.Daemon.HandlePayloadReply` | katzenpost/client/pigeonhole.go:1890-1972 | retries, completes or fails on the decryption outcome as PayloadSettles states |
| `Arq.Daemon.DeliverPlaintext` | katzenpost/client/pigeonhole.go:1935-1972 | untracks first, then reports a write, a tombstone, the unpadded message or an unpadding failure |
| `Arq.Daemon.HandleCopyCommandARQReply` | katzenpost/client/pigeonhole.go:1557-1621 | polls again while in progress and otherwise ends the copy command as CopySettles states |
| `Arq.Daemon.ScheduleCopyCommandPoll` | katzenpost/client/pigeonhole.go:1632-1671 | changes nothing if the message is no longer tracked, else moves it to a fresh placeholder and arms its timer |
| `Arq.Daemon.Cancel` | katzenpost/client/pigeonhole.go:1311-1370 | both cancel handlers are the cancel step, with the requester and the handler's own form on the reply |
| `Arq.Daemon.CleanupForAppID` | katzenpost/client/daemon.go:1099-1166 | the loops remove exactly the client's messages, their hashes and their timers, and count each as collected, and remove exactly the client's legacy replies and decoys |
| `Arq.Daemon.ExpectReply` | katzenpost/client/daemon.go:736-756 | files a SURB ID among the legacy replies or among the decoys, and in no other place |
| `Arq.Daemon.CollectSurbID` | katzenpost/client/daemon.go:477-481 | the collection of a SURB ID forgets a legacy reply or decoy and no tracked message |
| `SchedulerSpec.RegisterOkIff` | katzenpost/client/listener.go:384-388 | registering keeps the rotation list duplicate-free and equal to the connections if and only if the client is not connected already |
| `SchedulerSpec.UnregisterOk` | katzenpost/client/listener.go:394-414 | unregistering any client keeps the list in order and the cursor in range |
| `SchedulerSpec.ResumeOkIff` | katzenpost/client/listener.go:525-540 | a session resume keeps the list in order if and only if the resumed identity is not live on another connection |
| `SchedulerFairness.PickServesNearest` | katzenpost/client/listener.go:429-470 | if anyone has work, the client served is the ready one nearest to the cursor |
| `SchedulerFairness.UnregisterMoves` | katzenpost/client/listener.go:394-414 | removing another client brings a client one slot nearer if the other stood before it and otherwise leaves its distance as it is |
| `SchedulerFairness.ServedInTime` | katzenpost/client/listener.go:429-470 | a client with work is served by the pick whose number exceeds its distance, while others come, go, resume and queue work; each joining client can cost it one pick |
| `SchedulerFairness.ServedWithinRound` | katzenpost/client/listener.go:416-422 | with the membership fixed, n picks serve every client with work |
| `SchedulerFairness.BusyClientsShareAlike` | katzenpost/client/listener.go:416-422 | over any window in which two clients always have work, their service counts differ by at most one, also when other clients join, leave or resume |
| `SchedulerQueues.FirstInFirstOut` | katzenpost/client/listener.go:446-466 | over every run that neither removes nor renames the client, the resends served to it followed by those still queued are those queued at the start followed by those offered since, in order, and likewise its requests |
| `SchedulerQueues.ResendsFirst` | katzenpost/client/listener.go:440-466 | a request is served only to a client with no resend queued, and nobody is served only if nobody has anything queued |
| `Scheduler.Listener.RegisterConn` | katzenpost/client/listener.go:384-388 | appends the client to the rotation and stores its connection |
| `Scheduler.Listener.UnregisterConn` | katzenpost/client/listener.go:394-414 | removes the client, closes the gap and adjusts the cursor as specified |
| `Scheduler.Listener.PickNextRequest` | katzenpost/client/listener.go:429-470 | the scanning loop is the pick that PickServesNearest, FirstInFirstOut and ResendsFirst describe: the first client with work from the cursor on, the cursor one past it, one step when nobody has any |
| `Scheduler.Listener.ResumeSession` | katzenpost/client/listener.go:525-557 | renames the connection in the map and in place in the rotation list, hands over the replies that waited for the session, in order, and disarms its grace timer |
| `Scheduler.Listener.OnClosedConn` | katzenpost/client/listener.go:246-306 | a closed connection leaves the rotation; its client is forgotten at once unless it has a token and did not say goodbye, in which case a session without replies waits |
| `Scheduler.Listener.GraceExpired` | katzenpost/client/listener.go:272-293 | the grace timer has the client forgotten if and only if the session has not been resumed |
| `Scheduler.Listener.QueueReplyForDisconnected` | katzenpost/client/listener.go:591-606 | a reply is queued last for a waiting session with room, dropped when it has none, and refused when there is no session |
| `RetryQueueSpec.EveryRunOk` | katzenpost/replica/connector.go:142-245 | after every run no peer has two entries with one identity, first-seen times never decrease along the queue, and no peer exceeds its share |
| `RetryQueueSpec.NothingLost` | katzenpost/replica/connector.go:142-245 | after every run each command given to the queue is accounted for exactly once: still queued, sent, expired, evicted or superseded |
| `RetryQueueSpec.EvictionIsFair` | katzenpost/replica/connector.go:166-176 | eviction removes the peer's oldest entry and nobody else's |
| `RetryQueueSpec.OthersUntouched` | katzenpost/replica/connector.go:142-189 | queueing for one peer leaves the live entries of every other peer as they were |
| `RetryQueueSpec.LatestCommandQueued` | katzenpost/replica/connector.go:142-189 | afterwards a write or a message is in the queue exactly once for its peer, in its latest form, with the age of the live entry of its name and one more attempt, or new with one attempt |
| `RetryQueueSpec.ProcessSplits` | katzenpost/replica/connector.go:213-245 | processing sends or keeps each entry, exactly once, and sends it if and only if its peer was connected at the moment the entry was looked at, whatever connections come and go meanwhile |
| `RetryQueueLaws.PruneIff` | katzenpost/replica/connector.go:192-210 | pruning takes out exactly the entries older than the time to live and keeps the others in order, each as often as it was there |
| `RetryQueueLaws.NoneTooOld` | katzenpost/replica/connector.go:192-210 | no entry is left, after queueing or processing, that was older than the time to live at that moment |
| `RetryQueueLaws.ExpiredIff` | katzenpost/replica/connector.go:199-203 | the ledger counts a command as expired if and only if an entry with it is older than the time to live when the queue is pruned |
| `RetryQueueLaws.LeavesIff` | katzenpost/replica/connector.go:142-245 | over all steps, a queued write or message leaves the queue in exactly these ways: it is too old, it is sent, a later command of its name takes its place, or it is the oldest of a peer with a full share when a new one comes |
| `RetryQueueLaws.ConnectedIsSent` | katzenpost/replica/connector.go:223-243 | an entry that is not too old is sent by the processing throughout which its peer is connected |
| `RetryQueueLaws.SentOrStillQueued` | katzenpost/replica/connector.go:142-245 | over every run, until its time to live is over, a queued write or message is sent, replaced in one of those two ways, or queued as it was |
| `RetryQueueLaws.NewCommandQueued` | katzenpost/replica/connector.go:166-189 | a command with a new name, or with none, is queued last with its first attempt, and costs its peer the oldest entry exactly if the share is full |
| `RetryQueue.Connector.DispatchCommand` | katzenpost/replica/connector.go:116-136 | a command goes out at once when its peer is connected and is queued otherwise |
| `RetryQueue.Connector.PruneRetryQueueLocked` | katzenpost/replica/connector.go:192-210 | the in-place compaction equals the filter that PruneIff describes |
| `RetryQueue.Connector.QueueForRetry` | katzenpost/replica/connector.go:142-189 | the scan, the update in place, the eviction and the append equal their specification |
| `RetryQueue.Connector.ProcessRetryQueue` | katzenpost/replica/connector.go:213-245 | the reverse loop, which looks the connections up afresh for each entry, keeps the entries without one in order and dispatches the others newest first |
| `Sampler.ExcessIsRemainder` | katzenpost/pigeonhole/pki.go:31-34 | the wrapped computation yields 2^64 mod n |
| `Sampler.Uniform` | katzenpost/pigeonhole/pki.go:36-47 | for every n and every index below it, exactly (2^64 - 2^64 mod n) / n of the 64-bit values are accepted and yield that index |
| `Sampler.AtLeastHalf` | katzenpost/pigeonhole/pki.go:41-46 | more than half of all 64-bit values are accepted |
| `Sampler.CryptoRandIndex` | katzenpost/pigeonhole/pki.go:27-48 | returns the first accepted draw reduced modulo n, an error for n <= 0, and an error only after rejecting every value the reader delivered |
| `EnvelopeKeys.PruneKeepsWindowIff` | katzenpost/replica/keys.go:128-143 | pruning keeps exactly the keys from the previous epoch on whenever the epoch is positive; at epoch 0 it keeps them only if there is none below the largest epoch |
| `EnvelopeKeys.KeyStaysInWindow` | katzenpost/replica/keys.go:116-180 | a key made for an epoch is the only one ever made for it and stays on file until the current epoch exceeds it by two, in every run from a positive epoch |
| `EnvelopeKeys.NoKeyForThePast` | katzenpost/replica/keys.go:155-180 | a step makes a key only for the current or a later epoch that has none yet |
| `EnvelopeKeys.EnsuredIff` | katzenpost/replica/keys.go:162-180 | a key is returned if and only if it is on file, or the epoch is not over and the files could be written; it is then on file, a new one is unlike all others, and no other key changes |
| `EnvelopeKeys.PublishedKeyOpens` | katzenpost/replica/envelope_epoch.go:36-69 | a ciphertext to a published key opens and is attributed to its epoch whenever the current epoch is one before, equal to or one after it |
| `EnvelopeKeys.OpenedIff` | katzenpost/replica/envelope_epoch.go:36-69 | what is opened was opened by the key on file for the epoch named, the current one or a neighbour; it is not opened only if no such key opens it, and the error says whether there was one |
| `EnvelopeKeys.PreviousKeyOpens` | katzenpost/replica/keys.go:36-70 | after a restart what was sent to the previous epoch's key is opened if its file was still there |
| `EnvelopeKeys.BootedOk` | katzenpost/replica/keys.go:36-70 | start-up from a positive epoch establishes the invariant, with distinct keys exactly when the loaded key is not the generated one |
| `EnvelopeKeys.EnvelopeKeys.Generate` | katzenpost/replica/keys.go:116-126 | stores a fresh key when its files were written and nothing otherwise |
| `EnvelopeKeys.EnvelopeKeys.Prune` | katzenpost/replica/keys.go:128-143 | the deleting loop equals the filter with the 64-bit bound, and reports whether anything was deleted |
| `EnvelopeKeys.EnvelopeKeys.GetKeypair` | katzenpost/replica/keys.go:145-153 | returns the key on file or an error |
| `EnvelopeKeys.EnvelopeKeys.EnsureKey` | katzenpost/replica/keys.go:162-180 | generates on demand for the current and later epochs only |
| `EnvelopeKeys.EnvelopeKeys.TryDecapsulate` | katzenpost/replica/envelope_epoch.go:36-69 | the loop tries the previous, current and next epoch in this order, skips missing keys and the epoch before 0, and tells failure from absence |
| `Rlp.StringRoundTripIff` | kps-sendtx/main.go:93-98 | the encoding of a byte string is decoded to that string, leaving what follows, if and only if it is shorter than 56 bytes |
| `Rlp.UintRoundTrip` | kps-sendtx/main.go:100-110 | every 64-bit integer decodes to its minimal big-endian form |
| `Rlp.MinimalIsMinimal` | kps-sendtx/main.go:100-110 | the digits denote the number, have no leading zero and are as few as possible |
| `Rlp.ListRoundTrip` | kps-sendtx/main.go:112-124 | a list of 64-bit integers and strings shorter than 56 bytes is decoded item by item with nothing left over, for a body in the short or the long form |
| `Rlp.ListInjective` | kps-sendtx/main.go:112-124 | lists with equal encodings have equal items |
| `Rlp.RlpEncodeUint` | kps-sendtx/main.go:100-110 | the loop that prepends bytes produces the minimal form, encoded as a string |
| `Rlp.RlpEncodeList` | kps-sendtx/main.go:112-124 | the appending loop and the two header forms produce the specified list encoding |

## Left out

- CopyStream.CopyStreamEncoder.AddEnvelope: for geometries with room for a chunk; with any other the original loops forever or slices out of range.
- ArqTurns.ResentInTurn: for a client that stays connected and a message whose compose does not fail; times between turns are not modelled.
- CopyStreamSpec.CopyStreamRoundTrip: for chunk sizes that fit the 32-bit length field; what happens beyond is ChunksSurviveIff.
- BoxWindows.SameEpochWritesAgree: with no tombstone for the box and no collection of a later epoch between the two writes, and for payloads within the parse bound; WritersSeeTheLast covers every other case.
- BoxRepeats.RepeatedWrite: for a first write within the parse bound and without a tombstone for the box in between; a longer one can only be refused or not found, see WriteAnswered.
- RetryQueueLaws.LeavesIff: for writes and messages; of two equal entries of another kind one can go and the other stay, which membership does not tell.
- SchedulerQueues.FirstInFirstOut: for a client that is neither removed nor renamed; a removal drops its queues, a resume takes them along.
- BoxStore.State.HandleReplicaWrite: the check for full storage is part of the call, although the original makes it before it takes the lock; in BoxWriters the database does not fail.
- BoxStore.State.StateHandleReplicaRead: reads take no lock in the original; a read that overlaps a write is not modelled.
- BoxStore.Converges: for operations one after the other, payloads within the parse bound and deliveries within two consecutive epochs; beyond the window the promise fails, see TombstoneForgottenAfterWindow, and for overlapping writers see PutsIff.
- ArqTheorems.NeverGoesSilent: handlers are one step each except the failed compose and the hand-over of a copy reply, which are two; other interleavings inside a handler are not modelled.
- ArqTheorems.AtMostOneReply: for runs without a revival, which GaplessIff describes exactly; a revived operation can be answered again.
- ArqUntold.ReplyUnansweredIff: a panic while unpadding needs a plaintext of at least 2^32 - 4 bytes, which no geometry delivers; it would come up on the worker that handles replies, which does not recover, so the daemon would not go on as the model does.
- Arq.Daemon.HandleReply: what a connection does with a legacy reply is not modelled, only to whom it goes.
- Arq.Daemon.Cancel: the reply to the cancel request itself is not modelled, only the one to the operation that was started.
- Arq.Daemon.ArqSend: a failure of SendPacket is logged by the original and changes nothing, so it does not appear.
- Scheduler.Listener.PickNextRequest: channel capacities and closed channels are not modelled; a closed and drained channel is an empty queue.
- Scheduler.Listener.ResumeSession: tokens are not modelled, the caller passes the identity a token stands for; when the grace timer fires is up to the caller.
- RetryQueueSpec.NothingLost: about the queue only; what a connection does with a dispatched command is not modelled.
- Sampler.Uniform: counts the values of one draw; that draws are independent is a property of the random reader.
- EnvelopeKeys.KeyStaysInWindow: within one process run, with calls to EnsureKey one at a time; after a restart the next epoch's key is not reloaded.
- Rlp.ListRoundTrip: for bodies shorter than 2^64 bytes, which every Go slice is; EIP-155 signing is not modelled.
- Parsing into a receiver: a failed Parse leaves a partly filled receiver in the original, the model returns only the error.
- The timer queue is a multiset of SURB IDs: priorities and times are not modelled, any armed timer may fire next.
- The numeric values of the thin client's error codes and the ones they share with replica codes; codes are names here.
- Nil maps, nil pointers and a nil listener, which the daemon guards against at shutdown.
- GetRandomIntermediateReplicas, Rebalance, sharding, the courier, the dechunker and the walletshield, dashboard and relay programs.
- Sphinx, MKEM, BACAP and signature verification, QUIC and TCP transport, CBOR, logging, metrics exposition and configuration.
