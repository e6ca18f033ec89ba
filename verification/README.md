# A verified model of the io-uring runtime

This project models, in Dafny, the parts of the runtime whose correctness is
hardest to see from the code:

* **The operation driver.** Operations live in a slab whose keys travel through
  the kernel as `user_data` and are reused. `Lifecycle` gives each driver call
  as a function on slots, with every `unreachable!`, `expect`, `unwrap` and slab
  index as a `Panic` outcome. `Protocol` puts the calls, the two queues and the
  kernel into one state machine in which every operation has a generation number
  that is never reused. `Invariant`, `Preservation` and `PollSteps` prove the
  inductive invariant; `DriverSafety` draws the conclusions for every run,
  `DriverLaws` adds what single calls do in every run, `Progress` says that polling gets an operation on, and `PollAgain` what happens
  when a finished operation is polled again.
* **The two slabs as they are changed in place.** `SlabList` has the linked
  lists that share one slab, `Store` what the two slabs stand for, `Driver` the
  imperative methods, each proved equal to its function in `Lifecycle`; `Replay`
  carries out the calls of whole runs; `Submission` has the push and flush loops; `Teardown`, `TeardownOwed` and
  `DriverDrop` have the destructor of the driver.
* **What operations return.** `Multishot` defines the reference meaning of a
  stream of completions (one pass, left to right); `SendZc` and `RecvMultishot`
  are instances, `RecvLayout` the layout of a received buffer.
* **Shared descriptors.** `SharedFd`, and `FdProtocol` on top of the driver
  protocol, with `FdSafety` for what holds in every run of the composed system.
* **The fixed buffer pool.** `Pool` has the threaded free lists, `PoolProtocol`
  the tasks that share the pool and wait for buffers, `PoolWaiting` who is served
  and what a check-out shows.
* **Buffers.** `Buffers` (several iovecs), `Slices` (owned views), `WriteAll`
  (the write-all loops).

A run is any sequence of steps; a step that is not enabled changes nothing, so
statements about runs quantify over all sequences. The kernel is an environment:
it takes submission entries in order, and for each request it posts completions
with `more` and then exactly one without. A cancel acts when the kernel takes
it. Wakers are numbers, and every call of a waker is logged.

Where the code does not keep what its comments or its callers expect, the model
follows the code, gives an input and proves the exact condition:

* `should_yield` of the multishot receive is true as soon as one buffer has
  arrived, so every batch but the last carries exactly one buffer and the
  configured batch size never shows (`RecvMultishot.RecvTranscript`).
* `write_fixed_all_at` is documented to go on until the whole buffer is written.
  A request carries its length in 32 bits, so no request takes away a multiple of
  4 GiB. Whatever the kernel does, a view of 4 GiB or more is never written
  whole, and with a kernel that always writes something the loops succeed
  exactly below 4 GiB (`WriteAll.OneAnswer`, `WriteAll.FourGiBIsNotWritten`).
* `parse_recvmsg_out` returns errors for malformed buffers, but fails on a buffer
  that is long enough for its payload and announces a name that leaves the buffer
  (the slice panics) or the 128 bytes of address storage (the copy overruns it),
  and on no other (`RecvLayout.FailsExactly`, `RecvLayout.BothFailures`).
* `submit_ops` with more entries than the submission queue can hold never
  returns (`Submission.Submitter.SubmitOps`).
* `Driver::drop` is documented to wait for all operations. Its cancel pass
  unwraps `submit_and_wait`, so an interrupted or busy call panics. What is
  queued, the slots, the size of the submission queue and the kernel's answers
  decide it: the destructor panics exactly if an attempt that the flush needs is
  refused, or if an attempt that the cancels need, made with a full queue, is
  answered with any error; it does not if the cancels fit into the queue
  (`DriverDrop.DropDriver`, `DriverDrop.InterruptedDropPanics`).
* `poll_op` does not check whether its operation is finished, unlike
  `poll_multishot_op` and `remove_op`. Polled again on a reused key, a finished
  `Op` can take the newer operation's waker, free its slot, throw away its queued
  completions, or release its data while the kernel still has the request. All
  promises survive exactly if the handle is of another kind, the key is vacant,
  the newer operation has not been polled, or it waits and the waker of its
  latest poll is the one of this poll or has been called since
  (`PollAgain.KeepsExactly`, `PollAgain.WakeupIsLost`).

## Model

| member | source | states |
|---|---|---|
| `DriverSafety.NeverPanics` | `src/runtime/driver/mod.rs:75-455` | In every run of submissions, flushes, completions, dispatches, polls of unfinished operations, drops and cancels, no slab index misses, no `unreachable!` arm (including "invalid operation state") is entered and no `unwrap` or `expect` fails. `PollAgain` extends this to polls of finished operations. |
| `DriverSafety.NextOk` | `src/runtime/driver/mod.rs:57-455` | Every single step, also between the slab insertion and the push of the entry, keeps the invariant and does not panic. |
| `DriverSafety.NoMisrouting` | `src/runtime/driver/mod.rs:75-91` | In every run, whatever is half submitted, queued, in the kernel or in the completion queue names an occupied slot owned by the generation that submitted it, and every completion dispatched so far reached its own generation, although keys are reused. |
| `DriverSafety.CancelsOnlyItsOp` | `src/runtime/driver/mod.rs:178-190` | In every run, a request that a cancel finds when the kernel takes it is of the generation `cancel` was called on, never of a newer one with the same key. |
| `DriverSafety.DataHasOneOwner` | `src/runtime/driver/mod.rs:192-267` | The data of a request without a dispatched final completion is held by the operation or by the slot's `Ignored` box, never by both and never by neither; a box exists only while the final completion is to come, and it holds the operation's data. |
| `DriverSafety.BoxReleasedAtFinal` | `src/runtime/driver/op/mod.rs:378-388` | An `Ignored` box survives every step except the dispatch of the final completion of its own generation, and that dispatch releases it. |
| `DriverSafety.OutputsAreTheTranscript` | `src/runtime/driver/mod.rs:368-453` | Whatever the interleaving of dispatches and polls, the outputs an operation has returned are those of one left-to-right pass over the completions it consumed, early yields and restored lists included, also if it was dropped before its end; after its last output they are the transcript of the whole stream. |
| `DriverSafety.NoLostWakeup` | `src/runtime/driver/mod.rs:269-453` | If the latest poll of an unfinished operation was not its last, its waker is in the slot or has been woken since; if a dispatched completion is unconsumed, it has been woken. Polls of finished operations are in `PollAgain`. |
| `DriverSafety.UnfinishedOwnsItsSlot` | `src/runtime/driver/mod.rs:338-366` | While an operation has its data, its slot is occupied by it and not `Ignored`, and holds a list only for a multishot operation: the "already removed from slab" branch is dead. |
| `DriverSafety.ListsAreStreams` | `src/runtime/driver/op/mod.rs:398-405` | In every run every queued list is non-empty and only its last completion may lack `more`. |
| `DriverLaws.RequestsTravel` | `src/runtime/driver/mod.rs:113-176` | In every run, an operation is submitted under any vacant key, and its entry, which carries that key, goes to the end of the queue as soon as there is room. |
| `DriverLaws.KernelServes` | `src/runtime/driver/mod.rs:57-91` | In every run, the kernel takes the entry at the head of the queue, and may post any completion that the kind of a request allows, behind those posted before. |
| `DriverLaws.DispatchReachesItsOwn` | `src/runtime/driver/mod.rs:75-91` | In every run, dispatching a completion counts it for the generation that posted it, which owns the slot, and changes no other generation and no other slot. |
| `DriverLaws.CancelIsPushed` | `src/runtime/driver/mod.rs:178-190` | In every run, `cancel` on an unfinished multishot operation pushes one entry that names its key as soon as there is room, and changes nothing else. |
| `DriverLaws.CancelFindsItsOp` | `src/runtime/driver/mod.rs:178-190` | In every run, a cancel that the kernel takes names the key of its own generation, which is with the kernel or finished by then, and finds exactly that generation if it is with the kernel, and nothing otherwise. |
| `DriverLaws.DropMovesData` | `src/runtime/driver/mod.rs:192-267` | In every run, dropping an unfinished operation moves its data into the slot if the final completion is not dispatched, and otherwise releases it and frees the slot. |
| `DriverLaws.LatestPollIsRecorded` | `src/runtime/driver/mod.rs:269-453` | In every run, the waker that the wakeup law speaks of, and the moment it counts from, are those of the latest poll. |
| `Progress.PollConsumes` | `src/runtime/driver/mod.rs:296-455` | In every run, polling an unfinished operation with an unconsumed dispatched completion consumes at least one; once the final one is dispatched every such poll returns an output. |
| `Progress.NonYieldingEnds` | `src/runtime/driver/mod.rs:368-453` | In every run, one poll ends an operation that does not yield and whose final completion is dispatched. |
| `Progress.FewPollsEnd` | `src/runtime/driver/mod.rs:368-453` | In every run, an operation whose final completion is dispatched ends after at most as many polls as it has completions left. |
| `PollAgain.KeepsExactly` | `src/runtime/driver/mod.rs:296-341` | In every run, polling a finished operation again keeps one owner for all data in flight, every wakeup, every slot of an unfinished operation with its unconsumed completions, and the whole invariant, if and only if the handle refuses, its key is vacant, the newer operation there is unpolled, or it waits and does not need its waker. |
| `PollAgain.StealsTheWaker` | `src/runtime/driver/mod.rs:305-317` | In every run, such a poll of an `Op` whose key a waiting operation has leaves that operation with its waker neither in the slot nor woken. |
| `PollAgain.FreesTheSlot` | `src/runtime/driver/mod.rs:319-322` | In every run, such a poll of an `Op` whose key a completed operation has panics and frees the slot; when that operation is polled it panics, or if it is a multishot one returns a made-up error. |
| `PollAgain.ReleasesDataInFlight` | `src/runtime/driver/mod.rs:305-318` | In every run, such a poll of an `Op` whose key an operation dropped in flight has panics and releases the boxed data while the kernel still has the request. |
| `PollAgain.DropsTheQueue` | `src/runtime/driver/mod.rs:323-326` | In every run, such a poll of an `Op` whose key an operation with queued completions has panics and throws them away: the next poll of that operation consumes nothing and waits. |
| `PollAgain.WakeupIsLost` | `src/runtime/driver/mod.rs:296-327` | A run in which the completion of one operation wakes the task that polled another, finished one, and the waiting task is never woken. |
| `PollAgain.KeepingRuns` | `src/runtime/driver/mod.rs:296-341` | In every run whose repeated polls satisfy that condition when they happen, no driver call panics and all promises and the invariant hold. |
| `Preservation.StepConsume` | `src/runtime/driver/mod.rs:57-73` | The kernel taking the next entry, operation or cancel, keeps the invariant. |
| `Preservation.StepDispatch` | `src/runtime/driver/mod.rs:75-91` | Dispatching the oldest completion does not panic and keeps the invariant. |
| `Preservation.StepInsert` | `src/runtime/driver/mod.rs:113-176` | Inserting a slot under any vacant key before its entry is pushed keeps the invariant. |
| `Preservation.StepPush` | `src/runtime/driver/mod.rs:119-123` | Pushing the entry of a half-submitted operation keeps the invariant, also when completions were dispatched in between. |
| `Preservation.StepCancelPush` | `src/runtime/driver/mod.rs:178-190` | Pushing a cancel keeps the invariant, in particular that no other generation with that key is ahead of it or in the kernel. |
| `PollSteps.StepPoll` | `src/runtime/driver/mod.rs:296-455` | Polling an unfinished operation of either kind does not panic and keeps the invariant. |
| `PollSteps.StepDrop` | `src/runtime/driver/mod.rs:192-267` | Dropping an unfinished operation does not panic and keeps the invariant. |
| `Lifecycle.PanicIsFinal` | `src/runtime/driver/mod.rs:79-90` | A panic at one entry of the completion queue is a panic of the whole dispatch. |
| `Multishot.DrainIsFeed` | `src/runtime/driver/mod.rs:392-453` | One pass of the poll loop over a queued list does what the reference pass does and stops right after the first output, leaving exactly the unread rest. |
| `Multishot.FeedAllConcat` | `src/runtime/driver/mod.rs:400-434` | Feeding a stream in two pieces is feeding it at once, so it does not matter where polls cut it. |
| `Multishot.NonYieldingTranscript` | `src/runtime/driver/mod.rs:368-453` | An operation that never yields returns once: `complete` of the last completion applied to the left fold of `update` over all earlier ones. |
| `SlabList.ChainAcyclic` | `src/runtime/driver/op/slab_list.rs:18-32` | A list never meets itself. |
| `SlabList.ChainUnique` | `src/runtime/driver/op/slab_list.rs:18-32` | The two indices alone determine the list. |
| `SlabList.PushAmongMany` | `src/runtime/driver/op/slab_list.rs:99-112` | With any number of lists in one slab, `push` appends to its list, leaves the contents of every other list alone, and the lists still partition the occupied slots. |
| `SlabList.PopAmongMany` | `src/runtime/driver/op/slab_list.rs:86-97` | `pop` takes the oldest value of its list, leaves every other list alone, and keeps the partition. |
| `SlabList.DropAmongMany` | `src/runtime/driver/op/slab_list.rs:120-127` | `drop` frees the entries of its list and no others. |
| `SlabList.List.Push` | `src/runtime/driver/op/slab_list.rs:99-112` | In place: the slab and the indices become those of `Pushed`, and the chain grows by a vacant key. |
| `SlabList.List.Pop` | `src/runtime/driver/op/slab_list.rs:86-97` | In place: the first entry is freed and its value returned, or nothing changes on an empty list. |
| `SlabList.List.PeekEnd` | `src/runtime/driver/op/slab_list.rs:76-84` | Returns the value pushed last, and `None` exactly on an empty list. |
| `SlabList.List.Drop` | `src/runtime/driver/op/slab_list.rs:120-127` | In place: the loop ends and frees exactly the keys of the list. |
| `SlabList.List.IntoIndices` | `src/runtime/driver/op/slab_list.rs:114-117` | Gives the indices away, so that a later drop frees nothing. |
| `SlabList.List.IsEmpty` | `src/runtime/driver/op/slab_list.rs:72-74` | The start marker tells whether the list is empty. |
| `Store.WithListOk` | `src/runtime/driver/mod.rs:412-416` | Giving a slot a list changes what the two slabs stand for in that slot only, and the completions slab still holds exactly the entries of the queued lists. |
| `Store.WithoutListOk` | `src/runtime/driver/mod.rs:216-229` | Taking a list away, slot included or not, changes what the slabs stand for in that slot only; no entry leaks. |
| `Store.AppendedOk` | `src/runtime/driver/op/mod.rs:398-405` | Queueing a completion appends it to the list of its slot, or starts one. |
| `Store.ListIs` | `src/runtime/driver/mod.rs:216-222` | The list of a slot is never empty, so `peek_end().unwrap()` never fails, and it shows the completion queued last. |
| `Driver.Driver.Insert` | `src/runtime/driver/mod.rs:575-578` | Occupies a vacant key with `Submitted`. |
| `Driver.Driver.Complete` | `src/runtime/driver/op/mod.rs:353-407` | In place on both slabs: panics exactly when `Lifecycle.Dispatch` does, and otherwise leaves its slots and wakes its waker. |
| `Driver.Driver.DispatchCompletions` | `src/runtime/driver/mod.rs:75-91` | In place: the loop over the completion queue equals `Lifecycle.DispatchAll`, wakes in order, and skips the results of cancels. |
| `Driver.Driver.PollOp` | `src/runtime/driver/mod.rs:269-327` | In place: equals `Lifecycle.PollSingle`, panics included. |
| `Driver.DrainList` | `src/runtime/driver/mod.rs:400-434` | The poll loop over the linked list computes `Multishot.Drain`, frees exactly the entries it popped and leaves the rest as a valid list. |
| `Driver.Driver.PollList` | `src/runtime/driver/mod.rs:392-453` | In place: a poll of a slot with a list leaves the slots, data, output and self-wake of `Lifecycle.AfterDrain`. |
| `Driver.Driver.PollMultishotOp` | `src/runtime/driver/mod.rs:329-455` | In place: equals `Lifecycle.PollMulti` in every branch. |
| `Driver.Driver.FreeList` | `src/runtime/driver/mod.rs:216-229` | Frees the whole list of a slot and decides by the completion queued last. |
| `Driver.Driver.RemoveOp` | `src/runtime/driver/mod.rs:192-267` | In place: equals `Lifecycle.Remove`, and says whether the data moved into the slot. |
| `Replay.Execute` | `src/runtime/driver/mod.rs:75-455` | The calls of any run carried out in place, one after the other: the two slabs stand for the slots of the run, and the completions slab holds exactly the queued completions. |
| `Submission.Submitter.Submit` | `src/runtime/driver/mod.rs:57-73` | For every sequence of kernel answers: entries leave the queue in order and none is lost, completions are dispatched exactly at `EBUSY`, `EINTR` only retries, any other error is returned. |
| `Submission.Submitter.PushAll` | `src/runtime/driver/mod.rs:143-146` | The push loop adds all entries behind everything pushed before or none; it can go on for ever only if the kernel never empties the queue or the batch exceeds it. |
| `Submission.Submitter.SubmitOp` | `src/runtime/driver/mod.rs:113-176` | The slot is `Submitted` before anything is dispatched, and the entry that carries its key is the last in the queue. |
| `Submission.Submitter.SubmitOps` | `src/runtime/driver/mod.rs:128-149` | All slots of a batch are distinct, vacant before and occupied before the first dispatch, and their entries are pushed together; a batch larger than the queue is never pushed. |
| `Submission.Submitter.CancelOp` | `src/runtime/driver/mod.rs:178-190` | Does nothing when the slot is gone and otherwise pushes one cancel that names the key. |
| `Submission.DispatchConcat` | `src/runtime/driver/mod.rs:64-66` | Dispatching in two goes is dispatching at once, so it does not matter where a flush cuts the completions. |
| `Teardown.MarkSlots` | `src/runtime/driver/mod.rs:481-505` | The first pass of the destructor marks every slot `Completed` or `Ignored` by what is still to come and empties the completions slab. |
| `Teardown.BatchSettles` | `src/runtime/driver/mod.rs:525-544` | A batch of owed completions never panics after the marking and leaves the slots settled by the rest. |
| `Teardown.AwaitAll` | `src/runtime/driver/mod.rs:525-557` | The waiting loop ends, by the measure (waits left, highest key minus scan position), with no live key ever below the scan position, and with both slabs empty. |
| `TeardownOwed.KernelPaysItsDebts` | `src/runtime/driver/mod.rs:464-479` | In every run in which all final completions are posted, the completion queue holds exactly what `DropDriver` asks for. |
| `TeardownOwed.CancelResultsDoNotMatter` | `src/runtime/driver/mod.rs:80-85` | The results of cancels may stand anywhere in what the kernel posts without changing what is settled. |
| `TeardownOwed.OwedSettles` | `src/runtime/driver/mod.rs:464-479` | At the end of every run, what the kernel goes on to post until it is done with every request, with cancel results anywhere in it, settles exactly the slots the first pass marks. |
| `DriverDrop.FlushAll` | `src/runtime/driver/mod.rs:475-479` | For every sequence of kernel answers the flush empties the queue in order, dispatching what it finds at `EBUSY`; its `expect` fails only if, and unless a dispatch panics always if, an attempt is refused before which fewer entries are taken than were queued. |
| `Submission.FlushMakes` | `src/runtime/driver/mod.rs:475-479` | A flush makes an attempt exactly if the attempts before it take fewer entries than were queued. |
| `DriverDrop.PushCancel` | `src/runtime/driver/mod.rs:510-521` | Pushes one cancel or panics; by the queue, its size and the kernel's answers, it panics exactly if an attempt it needs is answered with any error, and goes on for ever exactly if none makes room. |
| `DriverDrop.CancelPass` | `src/runtime/driver/mod.rs:507-523` | Pushes exactly one cancel for each `Ignored` slot behind everything pushed before; by the number of cancels, the size of the queue and the kernel's answers alone, it panics exactly if an error comes before enough entries were taken. |
| `DriverDrop.InterruptedDropPanics` | `src/runtime/driver/mod.rs:474-558` | A driver with two operations in flight, a queue of one entry and an interrupted call: the destructor panics although the kernel posts all it owes. |
| `DriverDrop.MarkedBatch` | `src/runtime/driver/mod.rs:475-505` | Completions dispatched by the flush never panic, and marking afterwards leaves what marking first would leave. |
| `DriverDrop.ChopReaches` | `src/runtime/driver/mod.rs:538-544` | The waits of the destructor may get what is owed in any batches. |
| `DriverDrop.DropDriver` | `src/runtime/driver/mod.rs:474-558` | The four loops together: a condition on slots, queue and kernel answers says exactly when it panics, in the flush or in the cancel pass; otherwise both slabs end up empty, which also makes the assertion of `Ops::drop` hold, and every operation that had still to complete was cancelled once. |
| `DriverDrop.DropAfterRun` | `src/runtime/driver/mod.rs:464-558` | The same for a driver whose slots are those of any run, with nothing assumed but that the kernel goes on until it is done with every request. |
| `SendZc.FoldCounts` | `src/io/send_zc.rs:54-59` | The fold of `update` is the sum of all results, and hits the failing `unwrap` exactly when one is an error. |
| `SendZc.SendTranscript` | `src/io/send_zc.rs:44-59` | Everything a zero-copy send can return, by its completions. |
| `SendZc.SendCountsEveryByte` | `src/io/send_zc.rs:44-59` | In every run, a zero-copy send without error completions returns the sum of all results. |
| `RecvMultishot.FeedDelivers` | `src/io/recv_from_multishot.rs:326-345` | While completions with `more` arrive, each buffer is handed over at once, in order, and nothing accumulates. |
| `RecvMultishot.RecvTranscript` | `src/io/recv_from_multishot.rs:310-345` | The batches of a receive, concatenated, are all packets and all unparsed buffers in arrival order; exactly the last batch has `end` set, and says how the operation ended. |
| `RecvMultishot.EveryBufferDelivered` | `src/io/recv_from_multishot.rs:262-345` | In every run, a receive polled to its end has delivered every buffer that way, despite early yields and restored lists. |
| `RecvMultishot.NothingLost` | `src/io/recv_from_multishot.rs:265-299` | For completions whose flag words encode the buffer ids that the kernel wrote, the ids in packets and unparsed buffers together are exactly those of the successful ones, with multiplicity. |
| `RecvMultishot.MessageDelivered` | `src/io/recv_from_multishot.rs:190-299` | A completion whose buffer holds a message contributes a packet with its sender, the buffer id and `more` bit that the kernel wrote, and a range that is exactly its payload; the unparsed buffer id if the sender cannot be decoded, or the failure of a name longer than the storage. |
| `RecvMultishot.FlagsRoundTrip` | `src/io/recv_from_multishot.rs:269-276` | Reading a flag word gives back the buffer id and the `more` bit it was written with, whatever the other bits are. |
| `Uring.FlagWord` | `src/io/recv_from_multishot.rs:269-276` | The upper half of a flag word is the buffer id if bit 0 is set, bit 1 says that more follow, and nothing else in the word matters. |
| `RecvMultishot.NothingIsDropped` | `src/io/recv_from_multishot.rs:301-345` | Whatever has accumulated, an update adds behind it, a yield hands over all of it, and the final completion hands over all of it with the end. |
| `RecvMultishot.CrashesExactly` | `src/io/recv_from_multishot.rs:265-299` | The parser fails in a receive if and only if a successful completion selects a buffer that announces an overlong name. |
| `RecvMultishot.FittingNamesDoNotCrash` | `src/io/recv_from_multishot.rs:88-98` | With a reserved space within the address storage, as the operation uses it, names that fit that space never make the parser fail. |
| `RecvMultishot.Receiver.Record` | `src/io/recv_from_multishot.rs:265-299` | In place: adds one packet or one unparsed buffer id, or nothing without a buffer. |
| `RecvMultishot.Receiver.UpdateWith` | `src/io/recv_from_multishot.rs:326-334` | In place: records a successful completion and ignores an error. |
| `RecvMultishot.Receiver.CompleteWith` | `src/io/recv_from_multishot.rs:310-324` | In place: records a successful final completion and hands over everything with how the operation ended. |
| `RecvMultishot.Receiver.TakeBatch` | `src/io/recv_from_multishot.rs:301-307` | Hands over what accumulated and starts anew. |
| `RecvLayout.ParseEncode` | `src/io/recv_from_multishot.rs:190-260` | Parsing any buffer laid out with reserved name and control space gives the encoded address and exactly the range of the payload, the error for a name that is too short or not decodable, or the overrun of one longer than the storage. |
| `RecvLayout.Ipv4Parses` | `src/io/recv_from_multishot.rs:190-260` | In the space that the operation reserves, a 16-byte sender is read from byte 16 and the payload from byte 144. |
| `RecvLayout.LongestNameParses` | `src/io/recv_from_multishot.rs:236-247` | A name that fills the 128 bytes of storage is accepted. |
| `RecvLayout.LittleEndian` | `src/io/recv_from_multishot.rs:203-208` | The byte order of the header words, on one word. |
| `RecvLayout.TruncatedIsRejected` | `src/io/recv_from_multishot.rs:195-232` | A buffer cut off before the end of its payload gives an error. |
| `RecvLayout.FailsExactly` | `src/io/recv_from_multishot.rs:221-247` | The parser fails if and only if the buffer is long enough for its payload and the announced name leaves the buffer or the address storage. |
| `RecvLayout.FailureTakesLongName` | `src/io/recv_from_multishot.rs:88-98` | With the reserved space within the storage, every failure takes a name longer than that space. |
| `RecvLayout.BothFailures` | `src/io/recv_from_multishot.rs:234-247` | One input for each failure, with the 128 bytes of name and no control space that the operation reserves. |
| `RecvLayout.ParsedIsInside` | `src/io/recv_from_multishot.rs:211-260` | A parsed payload lies inside the buffer, behind the reserved space. |
| `SharedFd.Cell.Clone` | `src/io/shared_fd.rs:18-21` | One more reference, the state unchanged. |
| `SharedFd.Cell.Drop` | `src/io/shared_fd.rs:130-162` | Dropping a clone wakes a waiting closer; the last drop closes the descriptor unless a close was started. |
| `SharedFd.Cell.TryClose` | `src/io/shared_fd.rs:112-127` | The only holder marks the descriptor closed and submits the close exactly once. |
| `SharedFd.Cell.PollUnique` | `src/io/shared_fd.rs:82-108` | Ready exactly with one reference left or after a close; otherwise the latest waker is registered. |
| `FdSafety.RunFdOk` | `src/io/shared_fd.rs:67-162` | In every run of descriptors and driver together, with operations that are built, submitted or dropped before or after their owner begins to close or is dropped, no reference count underflows, no `close` spins, and both invariants hold. |
| `FdSafety.NoRequestOnClosedFd` | `src/io/shared_fd.rs:64-78` | In every run, a request not yet completely dispatched, whenever it was built and submitted, names a descriptor that is open, for which no close was started, and whose number means that descriptor only. |
| `FdSafety.ClosedAtMostOnce` | `src/io/shared_fd.rs:112-162` | In every run a descriptor is closed at most once, by the asynchronous close or by the last drop, never both; a close request exists only once nobody else holds the descriptor, and while an operation built on it waits to be submitted it is open. |
| `FdSafety.CloserIsWoken` | `src/io/shared_fd.rs:130-148` | The strong count is the handle plus the clones in operations built and operations submitted, and a closer that has become the only holder has been woken. |
| `FdSafety.CloserMovesOn` | `src/io/shared_fd.rs:67-108` | In every run, polling a closer submits the close request if and only if nobody else holds the descriptor, and otherwise registers its waker. |
| `FdSafety.LastDropCloses` | `src/io/shared_fd.rs:130-162` | In every run, dropping the last holder closes the descriptor unless a close was started, and dropping any other does not. |
| `FdSafety.CloseRequestCloses` | `src/io/shared_fd.rs:112-127` | In every run, the close request names its descriptor, and when the kernel carries it out that descriptor is closed, by it alone. |
| `FdSafety.StepSubmitPrepared` | `src/io/read_write.rs:100-107` | Submitting an operation that was built earlier keeps the invariant in every state of its owner: the clone moves from the operation into the request. |
| `FdSafety.OpenGivesFd` | `src/io/shared_fd.rs:18-55` | In every run, a number that the operating system has free can be opened and then means a new descriptor with one holder. |
| `FdSafety.InUseCanSubmit` | `src/io/shared_fd.rs:64-78` | In every run, a descriptor in use can be named by a request that clones it, and its owner can begin to close it. |
| `FdSafety.BuiltIsSubmitted` | `src/io/read_write.rs:100-107` | In every run, an operation can be built on a descriptor in use, and a built operation can be submitted whatever its owner does; the request then names the descriptor and holds the clone. |
| `FdSafety.RunProjects` | `src/runtime/driver/mod.rs:151-176` | The driver's part of every composed run is a run of the driver alone, so everything proved about those holds of it. |
| `Pool.TookOk` | `src/buf/fixed/plumbing/pool.rs:92-114` | Checking out pops the stack of exactly that capacity, and the stacks still hold exactly the free buffers. |
| `Pool.ReturnedOk` | `src/buf/fixed/plumbing/pool.rs:123-142` | Checking in pushes on the stack of the buffer's capacity and touches no other. |
| `Pool.StackHoldsFree` | `src/buf/fixed/plumbing/pool.rs:90-93` | A stack holds a buffer if and only if it is free and of that capacity. |
| `Pool.Pool.constructor` | `src/buf/fixed/plumbing/pool.rs:44-84` | The building loop threads the first 1024 buffers into free lists by capacity, all free with the lengths they came with. |
| `Pool.Pool.TryNext` | `src/buf/fixed/plumbing/pool.rs:92-114` | Succeeds exactly when a buffer of that capacity is free, returns the top one, and never meets a checked-out buffer; the links refine the stacks. |
| `Pool.Pool.CheckIn` | `src/buf/fixed/plumbing/pool.rs:123-142` | The buffer becomes the head of the free list of its capacity with its length recorded. |
| `Pool.Pool.AllCheckedIn` | `src/buf/fixed/plumbing/pool.rs:145-153` | The assertion of `drop` holds exactly when every buffer is free. |
| `PoolProtocol.NoLostWakeup` | `src/buf/fixed/pool.rs:142-178` | In every run, while a task waits un-notified for a capacity, the free buffers of that capacity do not outnumber the notified tasks yet to run, with stale permits, direct `try_next` callers and dropped futures. |
| `PoolWaiting.ServedInOrder` | `src/buf/fixed/pool.rs:142-178` | In every run, every task whose `next` got no buffer and was not dropped is in the line of its capacity, once for each such `next`, in the order in which they began to wait, and the notified ones are those that have waited longest. |
| `PoolWaiting.NotifyKeepsLine` | `src/buf/fixed/plumbing/pool.rs:137-141` | A notification loses and reorders nobody: it moves past the task that has waited longest, or stores a permit if nobody waits. |
| `PoolWaiting.NextTakesOrWaits` | `src/buf/fixed/pool.rs:142-153` | In every run, `next` and `try_next` take a buffer exactly when one of the capacity is free, and otherwise `next` joins the line at its end. |
| `PoolWaiting.DroppedWaiterLeaves` | `src/buf/fixed/pool.rs:155-178` | In every run, a `next` that waits un-notified and is dropped leaves the line, and the others stay in order. |
| `PoolWaiting.DroppedWokenLeaves` | `src/buf/fixed/pool.rs:155-178` | In every run, a notified `next` that is dropped before it ran leaves the line, and the others stay in order. |
| `PoolProtocol.FreeBufferIsTaken` | `src/buf/fixed/pool.rs:155-178` | If a buffer is free while a task waits for it, a notified task is there and running it takes a buffer. |
| `PoolProtocol.HandlesMatchBuffers` | `src/buf/fixed/pool.rs:303-354` | In every run, live handles and checked-out buffers correspond one to one through all changes of form, lengths stay within capacities, no panic is hit, and with no handle left all buffers are free. |
| `PoolWaiting.CheckInIsNextCheckOut` | `src/buf/fixed/pool.rs:346-353` | In every run, dropping a handle records the length it showed, and the next check-out of that capacity gets that buffer and shows exactly that length. |
| `PoolWaiting.FormsKeepLength` | `src/buf/fixed/pool.rs:315-344` | In every run, turning a `FixedBuf` into a `Buffer` or back keeps the buffer and the length it shows, and `set_init` sets the length as far as there is room. |
| `PoolWaiting.FormsRoundTrip` | `src/buf/fixed/pool.rs:318-343` | The two conversions undo each other. |
| `Buffers.SetInitFits` | `src/buf/mod.rs:229-235` | `set_init` keeps each length within its capacity, and the lengths add up to the position as far as there is room. |
| `Buffers.ScatterRoundTrip` | `src/buf/mod.rs:229-235` | After a scattered read of n bytes into full iovecs and `set_init(n)`, the views concatenate to exactly those bytes. |
| `Buffers.ReadDelivers` | `src/io/read_write.rs:38-54` | From `fill` to the output transform, a successful read shows its caller exactly the bytes read. |
| `Buffers.OthersKeepLengths` | `src/io/read_write.rs:38-54` | A write of any result, and a failure of either kind, gives the buffer back with every length as it was, and reports the result. |
| `Buffers.IoVecs.Fill` | `src/buf/mod.rs:152-156` | In place: every iovec is as long as its capacity. |
| `Buffers.IoVecs.SetInitTo` | `src/buf/mod.rs:229-235` | In place: the loop over the iovecs computes `SetInit`. |
| `Buffers.IoVecs.BytesInit` | `src/buf/mod.rs:211-213` | The sum of the lengths. |
| `Slices.SubSliceShows` | `src/buf/slice.rs:148-177` | A slice of a slice is the range of its view, initialized or not, shows the slice of what is shown, and is made exactly when the range starts in the initialized part and stays inside the view. |
| `Slices.BufSliceIs` | `src/buf/bounded.rs:82-103` | A slice of a whole buffer is the range of its memory, with that many bytes in total, and is made exactly when the range starts before the end and in the initialized part, and stays inside. |
| `Slices.BoundForms` | `src/buf/slice.rs:148-177` | Every form of range bound is the half-open range it means, overflow included. |
| `Slices.WholeAndFull` | `src/buf/bounded.rs:82-108` | Slicing a whole buffer is slicing its full view, except that a start at the very end of the buffer is refused. |
| `Slices.SuffixShows` | `src/buf/slice.rs:148-177` | Slicing off bytes that were written never fails and shows the rest. |
| `Slices.BoundsRoundTrip` | `src/buf/slice.rs:187-195` | `from_buf_bounds` of a view's buffer and bounds is the view, whole buffer or slice, and fails exactly when the initialized part no longer reaches the start of the slice. |
| `Slices.PutSliceShows` | `src/buf/bounded.rs:163-177` | `put_slice` fails exactly when the source does not fit; after it the view shows exactly the source, everything up to its end counts as initialized, and the bytes outside the copied range are unchanged. |
| `WriteAll.OneAnswer` | `src/io/write_fixed.rs:41-66` | How one request moves a write loop on or ends it, given that the length is cut to 32 bits: no answer takes away a multiple of 4 GiB. |
| `WriteAll.WriteFixedAllAtSlice` | `src/fs/file.rs:468-502` | For every sequence of short writes the loop ends without a failing slice or an overflow; the chunks are the view at consecutive offsets, or a prefix of it on an error; the error is the kernel's own exactly when the last call failed, and `WriteZero` exactly when it wrote nothing; success means a view below 4 GiB whatever the kernel does, and a kernel that always writes something makes it succeed exactly below 4 GiB. |
| `WriteAll.Sink.WriteFixedAt` | `src/io/write_fixed.rs:26-79` | One request: the kernel's answer to the length cut to 32 bits, and the buffer back as the output of a write returns it, unchanged. |
| `WriteAll.WriteFixedAllAt` | `src/fs/file.rs:458-466` | The same for a whole buffer or a slice, and the caller gets back what it passed in, with the original bounds. |
| `WriteAll.WriteFixedAllSlice` | `src/io/socket.rs:65-91` | The same loop for a socket, without the offset check. |
| `WriteAll.WriteFixedAll` | `src/io/socket.rs:54-63` | The socket call on a whole buffer or a slice: the caller gets back what it passed in. |
| `WriteAll.FourGiBIsNotWritten` | `src/fs/file.rs:480-487` | A buffer of exactly 4 GiB: nothing is written and `WriteZero` is reported after the first call, unless that call fails. |

## Left out

- Thin opcode builders, `net`, the runtime and tokio glue, `OpenOptions`, `compat`: plumbing over libraries and the kernel.
- The indexed buffer registry and `create_dir_all`: they would add easy members beside the pool and the driver.
- What happens to the operation after a failed submission (`submit_op` returning an error, `Op::close` failing): the protocol has only submissions that succeed. `Submission` models the error return itself.
- `Protocol` pushes the entries of a `submit_ops` batch one at a time, with other steps allowed in between; the real runs are among these runs.
- `Submission.Submitter` holds the slots as a value, not the two slabs: in-place dispatch is in `Driver.Driver.DispatchCompletions`.
- Link flags and chained submission entries (`src/runtime/driver/op/link.rs`): entries are independent here.
- `Protocol` has no polls of finished operations; `PollAgain` adds them as steps, with a panic ending the task that polled and not the system. The entries that a panic in `poll_op` leaks from the completions slab are not counted there.
- Data retention and descriptors during teardown: the marking pass of `Driver::drop` replaces every payload while requests are still in flight, so these claims stop where teardown starts.
- `DriverDrop.DropDriver`: the flush runs on the slots and the slabs follow with the same completions; the order of the cancel pass is any order, not that of the slab.
- The capacity of a slab: `Insert`, `Append` and `Replay.Execute` ask for fewer than `usize::MAX` entries or steps, any vacant key may be handed out, and the key order of the slab library is not modelled.
- The error path of `read_at`: the lengths set by `fill` are not restored, so initialized lengths are claimed for successful reads only.
- Slices whose start exceeds their end, and buffers with several iovecs under `Slice`: the source does not check them, and well-formed ranges over single-iovec buffers are preconditions.
- `RecvMsg::complete`: it passes an uncapped count to `set_init`.
- `set_init` of buffer types other than `Buffer`, raw pointers, pinning and `TypeId` dispatch: memory is a byte sequence and a buffer an index.
- Decoding of socket addresses is a parameter of the parser, and what the kernel left in a provided buffer is attached to its completion.
- `Notify` of tokio is modelled by its documented behaviour, with a failed `try_next` and the registration of the waiter as one step, as on one thread.
- More than one closer per descriptor: `File::close` consumes the file.
- The conversion of a completion entry into `CqeResult` happens where the completion is consumed, not where it is queued.
