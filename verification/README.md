# A verified model of toxfsd's file transfer

toxfsd moves files between Tox friends. Inside one process three threads carry
the traffic: the **loop thread** runs toxcore and receives its callbacks, the
**message thread** hands events to the transfer controller, and the **work
thread** reads and writes the files. Three bounded queues connect them
(`recv_queue` 512, `work_queue` 256, `send_queue` 512), and a per-file window
of 16 credits limits how many chunk requests are under way. This project models
that pipeline, proves what every step and every run of it keeps, and proves
exactly when a file sent by one node arrives at another.

The Dafny modules follow the program:

| module | what it is |
|---|---|
| `Basics`, `FileEvents` | machine integers, ids, the events and messages in the queues |
| `Progress`, `HexAddress` | `chunked_progress`; the hex parser and the address fields |
| `MessageQueue` | the bounded queue as a monitor: any number of threads, timed and untimed waits, spurious wake-ups, `notify_one` after the unlock |
| `Streams`, `TransferCtrl` | a file stream; the transfers, the disk they share, and what the closures of the work thread do to them |
| `SeekCache` | the cached position that skips seeks, for one transfer |
| `WorkThread` | the closures on the mutable map of transfers |
| `SeekCacheRuns`, `StoredFiles`, `TransferProgress` | a running node: the chunks it sends, the files it receives, how far each transfer has got |
| `ChunkWindow` | the window of one file and the handlers that use it |
| `Node`, `Projection`, `NodeInvariants` | one process as a state machine in which the threads interleave between any two queue operations; per-file views; what every step keeps |
| `Conservation`, `Quiescence`, `Deadlock`, `Drain`, `Lifecycle`, `Activity`, `Answers`, `Delivery` | results over all runs of a node |
| `Scenarios`, `DeadlockWitness`, `EdgeCases` | ways to drive a node, and reachable states that show that the conditions of those results are needed |
| `FileLog`, `FileUse`, `Script` | what a node ran for one file; one use of a file id among many; what the steps of a transfer do |
| `RoundTrip`, `RoundTripLimits`, `RoundTripWitness`, `RoundTripFailures` | two nodes and a file between them; exactly when it arrives; that the assumptions can be met; that each cause of failure happens |
| `SendPath`, `SentFiles` | `send_path`, its promises and its futures; from a call of it to the file on the other side |

Objects that the program updates in place (`chunked_progress`, `address_t`,
`message_queue`, `transfer_ctrl`, the window map of `tox_t::impl_t`) are
classes whose methods follow the source statement by statement and are proved
equal to specification functions; the results about whole runs are lemmas about
those functions.

## What the results say

- **Window.** Between handlers a request waits only while all 16 credits are
  out. So the limit never doubles, and the periodic sweep never forwards
  anything: it only evicts, and it evicts exactly the entries of the files for
  which, when `tox_iterate` last returned, neither a request nor a credit had come
  for more than 60 seconds.
- **Credit.** For every file, credit out plus credit forgotten by evictions
  equals what is under way plus what was used up without a reply. An eviction
  can drive the credit below zero (`EdgeCases.CreditCanGoNegative`).
- **Deadlock.** As far as the file traffic goes, the threads are stuck exactly in
  the circular wait of three full queues and a message in each hand, exactly
  1282 messages, and then for ever. Up to 80 files cannot get there with requests and
  chunks alone; 81 can, and `DeadlockWitness.EightyOneFilesCanDeadlock` drives a
  node there step by step.
- **Drain and stall.** Without new work every run is bounded, by a number of
  thread steps that is stated, and it ends at rest: with nothing left, or in the
  circular wait, and never there below the bound of the previous point. At rest
  a file still has waiting requests only if 16 credits, and those that evictions
  forgot, were used up without a reply. Such a stall is reachable
  (`EdgeCases.StallIsReachable`).
- **Seek cache.** `lastPos` is not the stream position; it counts bytes. After any
  history of requests, the bytes sent are those from where the stream stands if
  the offset equals the count, and from the offset otherwise. So they are the
  right ones exactly if the offset differs from the count, or the stream stands
  there anyway, or the bytes at both places are the same. Forward requests that
  a buffer can hold, with gaps and failures, always have such offsets; a backward
  request need not, and wrong bytes can then follow each other
  (`SeekCache.AccidentsCanFollowEachOther`).
- **Round trip.** toxcore gives a file id out again when its transfer is over, and
  paths are used again too; so the theorem is about one *use* of an id, in a node
  with any past: its logs begin where the id was last free (`FileUse.Use`), and the
  whole life of a node is the special case of the first use. Under every
  interleaving of both nodes, while they also carry other files, the received file
  is at all times a prefix of the sent one, and at rest it is the sent one and both
  transfers are gone. Three things can break it, and all are shown to happen in
  reachable nodes (`RoundTripFailures`): a registration that is run after the
  resumption; a change of the file on the disk while it is being sent, as by a file
  received under its name, which empties it; and a window that earlier uses of the
  id have spent. Each file that is sent to its end costs its id one credit, because
  the empty request that ends it takes one and gets no reply
  (`RoundTripLimits.FileCostsOneCredit`); only an eviction after 60 idle seconds
  makes up for it. What earlier uses spent and no eviction has forgotten is
  *withheld* from a use (`FileUse.Withheld`). 16 files can be sent under one id in
  a row, and the seventeenth waits. With the other assumptions below, toxcore is given all pieces of a file
  that has any if and only if the registration was run first, fewer than 16
  credits are withheld, and every piece was found at its place on the disk when it
  was read (`RoundTripLimits.AllGivenIff`); and a file that nothing disturbs on the
  disk arrives if and only if the first two hold, or it is empty
  (`RoundTripLimits.ArrivesIff`). `SentFiles.SentFileArrivesIff` states this from
  the call of `send_path` on.
- **Queue.** For any number of threads the monitor behaves like an atomic bounded
  queue, and no wake-up is lost. A timed call whose deadline has passed sleeps no
  more and ends when it next gets the mutex; no other call but `try_pop` gives up.

## Where the code and its documentation differ

The model follows the code.

- The window has a branch that doubles `max_in_flight` up to 64
  (`common/src/tox/tox.cc:624-627`). It never runs.
- `push_timeout` and `push_until_time` are documented to return true
  (`common/include/toxfs/util/message_queue.hh:129`, `:149`); they return false
  on a timeout.
- Two characters of which only the first is a hex digit are read as one digit,
  not refused (`common/src/util/string_helpers.cc:43-47`).
- The counter behind `progress()` wraps at 64 bits and can then go back
  (`common/src/util/chunked_progress.cc:32-43`).

## Model

| member | source | states |
|---|---|---|
| Progress.ChunkedProgress.Update | common/src/util/chunked_progress.cc:32-43 | the tracked position becomes the maximum of itself and the end of the chunk whenever that end fits 64 bits; the wrap-around otherwise |
| Progress.AdvanceIsMaxIffNoOverflow | common/src/util/chunked_progress.cc:34-42 | an update keeps the maximum if and only if the end of the chunk does not overflow |
| Progress.OverflowCanLoseProgress | common/src/util/chunked_progress.cc:34-42 | with an overflow the progress can go backwards |
| Progress.ProgressIsFurthestEnd | common/src/util/chunked_progress.cc:32-48 | after any updates the progress is the maximum of 0 and all chunk ends |
| Progress.ProgressIgnoresOrder | common/src/util/chunked_progress.cc:32-48 | reordered or repeated updates give the same progress |
| Progress.ProgressBounds | common/src/util/chunked_progress.cc:32-53 | progress is monotone and never exceeds the total while chunks stay in the file |
| Progress.ContiguousProgress | common/src/util/chunked_progress.cc:32-48 | for back-to-back chunks from 0 it is the number of bytes moved |
| HexAddress.HexStringToBinary | common/src/util/string_helpers.cc:30-52 | the loop yields the parse of all pairs, or the error for odd length or for a pair without a leading digit |
| HexAddress.AcceptedStrings | common/src/util/string_helpers.cc:40-49 | an even-length string is accepted if and only if every pair begins with a hex digit, and byte i is what pair i says |
| HexAddress.DigitsAreThese | common/src/util/string_helpers.cc:43 | the digits are exactly the characters of "0123456789abcdefABCDEF", each with the value of its place |
| HexAddress.AcceptedDigits | common/src/util/string_helpers.cc:40-49 | an even-length string is accepted if and only if every pair begins with one of these |
| HexAddress.CaseIsIgnored | common/src/util/string_helpers.cc:43 | a string and its lower-case form parse alike |
| HexAddress.ParseAfterUpperPrint | common/src/util/string_helpers.cc:30-52 | parsing the upper-case printing of any bytes gives them back, too |
| HexAddress.LenientPair | common/src/util/string_helpers.cc:43-47 | a pair whose second character is no digit is read as one digit |
| HexAddress.ParseAfterPrint | common/src/util/string_helpers.cc:30-52 | parsing the two-digit lower-case printing of any bytes gives them back |
| HexAddress.PrintAfterParse | common/src/util/string_helpers.cc:30-52 | printing an accepted string gives its lower-case form if and only if it holds hex digits only |
| HexAddress.Address.SubArr | common/include/toxfs/tox/tox_types.hh:42-49 | a fresh copy of exactly the given range of the address |
| HexAddress.Address.PublicKey | common/include/toxfs/tox/tox_types.hh:54-57 | the first 32 bytes |
| HexAddress.Address.Nospam | common/include/toxfs/tox/tox_types.hh:59-62 | the next 4 bytes |
| HexAddress.Address.Checksum | common/include/toxfs/tox/tox_types.hh:64-67 | the last 2 bytes |
| HexAddress.AddressRoundTrip | common/src/tox/tox.cc:364-369 | the three fields, of 32, 4 and 2 bytes, tile the 38 bytes; a printed address parses back to itself and its first 64 characters to its public key |
| MessageQueue.BoundedQueue.Push | common/include/toxfs/util/message_queue.hh:116-163 | the critical section of the three pushes is the locked step of the monitor and keeps its invariant |
| MessageQueue.BoundedQueue.Pop | common/include/toxfs/util/message_queue.hh:169-239 | the critical section of the four pops is the locked step, returns the oldest item or nothing, and keeps the invariant |
| MessageQueue.BoundedQueue.NotifyOne | common/include/toxfs/util/message_queue.hh:121-122 | after the unlock one sleeper of the right kind is woken if there is one, and the invariant is kept |
| MessageQueue.StepKeepsInv | common/include/toxfs/util/message_queue.hh:116-239 | every step of any thread, spurious wake-ups and timeouts included, keeps: if a consumer sleeps, items number at most the push-notifies owed plus the consumers notified; the mirror for producers; the bound; the order |
| MessageQueue.Linearisable | common/include/toxfs/util/message_queue.hh:116-239 | in every reachable state what was pushed is what was popped followed by the contents, and the length is within the bound |
| MessageQueue.RunIsAtomic | common/include/toxfs/util/message_queue.hh:116-239 | every run of any number of threads is, in the order in which the calls hold the mutex, a run of the sequential bounded queue: no push beyond the bound, and each pop returns the head |
| MessageQueue.GivingUp | common/include/toxfs/util/message_queue.hh:135-138 | a call that gives up adds and removes nothing, and gives up only when there is really no room or nothing there |
| MessageQueue.LockDoes | common/include/toxfs/util/message_queue.hh:116-239 | with the mutex a call takes effect and owes its notify if there is room, or something there; otherwise it changes nothing, ends if its wait has expired or it is a try_pop, and sleeps if not |
| MessageQueue.CallKeepsItsItem | common/include/toxfs/util/message_queue.hh:116-239 | over every run: until a call has taken or stored an item or given up, it is the call that was made, with its item and its way of waiting, however often it sleeps and wakes |
| MessageQueue.DeadlineEnds | common/include/toxfs/util/message_queue.hh:210-213 | over every run: a timed call whose deadline passes, asleep or not, sleeps no more, stays the same call, can take the mutex at any time and ends when it does, with its effect or without any |
| MessageQueue.NoDeadlineNoGivingUp | common/include/toxfs/util/message_queue.hh:116-173 | over every run: a call other than try_pop whose deadline has not passed does not give up, however often it is woken |
| MessageQueue.OnlyTheChosenAreNotified | common/include/toxfs/util/message_queue.hh:116-239 | over every run: a thread counts as notified only if a notify_one has chosen it |
| MessageQueue.NoLostWakeup | common/include/toxfs/util/message_queue.hh:116-239 | while a thread sleeps although it could work, another thread is awake and able to step that will wake, or is, one of its kind |
| MessageQueue.AllAsleepMeansNothingToDo | common/include/toxfs/util/message_queue.hh:116-239 | if nobody is awake in a call, sleeping consumers face an empty queue, sleeping producers a full one, and not both kinds sleep |
| WorkThread.Controller.RunRegister | common/src/transfer/transfer_ctrl.cc:113-117 | the closure on the mutable map is the pure step, and no other transfer changes |
| WorkThread.Serve | common/src/transfer/transfer_ctrl.cc:200-227 | the statements that read, in their order and with the seek test, the allocation that throws and both ends, have the effect of the pure step on the bytes that are on the disk at that moment; so what is sent are the bytes from where the head of the stream says, all of them or nothing, and the transfer ends where the head does |
| WorkThread.Keep | common/src/transfer/transfer_ctrl.cc:256-278 | the same for the statements that write: the chunk is laid over the file where the head says, as far as the device lets it |
| WorkThread.Controller.RunReceive | common/src/transfer/transfer_ctrl.cc:136-146 | the same for an incoming file, which is emptied for every stream open on it even if the id is taken, and the resume it sends |
| WorkThread.Controller.RunControl | common/src/transfer/transfer_ctrl.cc:151-177 | the same for pause, resume and cancel |
| WorkThread.Controller.RunRequest | common/src/transfer/transfer_ctrl.cc:182-233 | the same for a chunk request and the chunk it sends |
| WorkThread.Controller.RunChunk | common/src/transfer/transfer_ctrl.cc:238-284 | the same for an incoming chunk and the file on the disk |
| Streams.WriteReadsBack | common/src/transfer/transfer_ctrl.cc:263-268 | what a write puts at an offset is read back from there through any stream on the file; at the old end it is appended; the stream fails exactly if it is not all of it |
| Streams.WriteLeavesTheRest | common/src/transfer/transfer_ctrl.cc:263-268 | and a read of any other part of the file gives what it gave before |
| SeekCache.CacheInvHolds | common/src/transfer/transfer_ctrl.cc:207-227 | after any history of requests `lastPos` is the count of bytes since the start, or from -1 since the last failure, and the stream stands where that history says |
| SeekCache.AnswerComesFromHead | common/src/transfer/transfer_ctrl.cc:207-227 | so every answer of every run holds the file's bytes from the stream position if the offset equals the count and from the offset otherwise, all of them or nothing |
| SeekCache.AnswerIsDirectIffPlaced | common/src/transfer/transfer_ctrl.cc:207-227 | after any history the answer equals that of "always seek first" if and only if the stream is usable and the offset differs from the count or is where the stream stands, or reading at both places gives the same |
| SeekCache.ForwardIsPlaced | common/src/transfer/transfer_ctrl.cc:207-227 | if each request starts at or behind the end of the last one that could be read, gaps and failures included, no offset meets the count by accident |
| SeekCache.ForwardAnswersAreDirect | common/src/transfer/transfer_ctrl.cc:200-227 | on forward requests every chunk sent holds exactly the file's bytes at its own position |
| SeekCache.BackwardCanReadWrongBytes | common/src/transfer/transfer_ctrl.cc:207-219 | a backward request can be answered with the wrong bytes |
| SeekCache.AccidentsCanFollowEachOther | common/src/transfer/transfer_ctrl.cc:207-219 | and the next one, at the offset where the stream should then be, with wrong bytes again |
| SeekCache.HugeRequestMovesTheStream | common/src/transfer/transfer_ctrl.cc:207-219 | a request that no buffer can hold leaves the stream moved and the cache not, and a forward request then gets wrong bytes |
| SeekCacheRuns.ReplyComesFromHead | common/src/transfer/transfer_ctrl.cc:182-228 | in every reachable node every chunk made holds what was on the disk at that moment, from where the requests served since the registration put the stream |
| SeekCacheRuns.GivenHoldTheFile | common/src/transfer/transfer_ctrl.cc:182-228 | in every reachable node a chunk that toxcore was given for requests that go forward holds file[pos..pos+size), of the bytes on the disk at its path when it was read |
| SeekCache.StoresAreOverlays | common/src/transfer/transfer_ctrl.cc:263-273 | for forward chunks without write errors the file is the overlay of all chunks at their own offsets on zeros |
| SeekCache.WhereStored | common/src/transfer/transfer_ctrl.cc:263-273 | after any history the next chunk goes to its own offset unless this equals the count, and then behind the last one; the file is the one with the chunk at its own offset if and only if that is no accident or makes no difference |
| SeekCache.FirstFailedWrite | common/src/transfer/transfer_ctrl.cc:263-278 | after any history, the first chunk that is not written in full leaves the part that was written, and neither the file nor the progress ever changes again |
| StoredFiles.DiskHoldsTheChunks | common/src/transfer/transfer_ctrl.cc:236-285 | in every reachable node, while a file is being received and nothing else is saved to its path, the disk holds there what its own chunks, as far as they were stored, make of an empty file, and its transfer is where they leave it |
| StoredFiles.ReceivedIsOverlay | common/src/transfer/transfer_ctrl.cc:263-273 | in every reachable node: for forward chunks without write errors that is their overlay at their own offsets |
| StoredFiles.FailedWriteIsFinal | common/src/transfer/transfer_ctrl.cc:263-278 | in every reachable node: after a chunk that was not stored in full, the file, the failed stream and the progress stay as it left them |
| TransferProgress.ProgressOfReachable | common/src/transfer/transfer_ctrl.cc:182-284 | in every reachable node, with any gaps, repeats and failures: the progress of a transfer is the one after the chunks answered, or stored in full, since it was made, at their own positions; without an overflow it is the furthest end of these |
| ChunkWindow.ToppedUpIsOk | common/src/tox/tox.cc:603-608 | the forwarding loop leaves a full window or no waiting request; nothing is lost or reordered; a window that is in order is left alone by it and by the doubling test |
| ChunkWindow.Window.Forward | common/src/tox/tox.cc:603-608 | the loop pushes, in order, as many waiting requests as there is credit and takes that credit |
| ChunkWindow.Window.CheckOne | common/src/tox/tox.cc:598-609 | the same for the entry of one file, which is made if missing |
| ChunkWindow.Window.OnFileChunkRequest | common/src/tox/tox.cc:493-505 | below 16 credits the new request goes through at once, otherwise it waits as the last one |
| ChunkWindow.Window.SendFileChunk | common/src/tox/tox.cc:560-576 | the credit that comes back is given to the oldest waiting request if there is one; a refused chunk is reported first |
| ChunkWindow.Window.Collect | common/src/tox/tox.cc:612-635 | for any order of the visits the first loop marks exactly the idle entries and changes nothing else |
| ChunkWindow.Window.EraseAll | common/src/tox/tox.cc:637-640 | exactly the marked entries are gone, for any order |
| ChunkWindow.Window.Sweep | common/src/tox/tox.cc:610-641 | the map afterwards is the old one without exactly the entries idle for more than 60 seconds, and nothing is forwarded |
| NodeInvariants.StepKeepsWindow | common/src/tox/tox.cc:596-642 | every step of any thread keeps all windows in order but the one being topped up |
| NodeInvariants.StepKeepsFlow | common/src/tox/tox.cc:493-642 | every step keeps, for every file, the order of requests, the count of requests and credits, and the order of replies |
| NodeInvariants.StepKeepsWork | common/src/transfer/transfer_ctrl.cc:292-314 | every step keeps the transfers and the disk equal to what the closures run so far make of them, file by file |
| NodeInvariants.ReachableInv | common/src/tox/tox.cc:375-398 | all of these hold in every reachable state |
| Conservation.WindowToppedUp | common/src/tox/tox.cc:596-642 | outside its forwarding loop a file's requests wait only while 16 credits are out; the limit is always 16; the sweep never doubles and never forwards |
| Conservation.SweepEvictsTheIdle | common/src/tox/tox.cc:612-640 | a sweep interleaved with the other threads erases only entries idle for more than 60 seconds when it started, and leaves none of these |
| Activity.EntriesAreDated | common/src/tox/tox.cc:499-504 | over every run: an entry bears the time of the last request for its file or of the last credit that came back for it |
| Activity.OnlyTheIdleGo | common/src/tox/tox.cc:610-641 | over every run: a file is evicted only if, when tox_iterate last returned, more than 60 seconds had passed since the last request for it and the last credit that came back for it |
| Activity.AllTheIdleGo | common/src/tox/tox.cc:375-381 | over every run: when the loop thread is at its queue, no entry is left for which that is so |
| Activity.OneMessagePerIteration | common/src/tox/tox.cc:375-398 | over every run: between two looks at its queue the loop thread goes through tox_iterate and a sweep, so toxcore is given at most one message in each iteration |
| Conservation.ForwardingIsToppingUp | common/src/tox/tox.cc:603-608 | the interleaved forwarding loop leaves the window as the uninterrupted handler does, whatever the other threads do |
| Conservation.RequestsRun | common/src/transfer/transfer_ctrl.cc:182-233 | the requests run are the unanswered ones and those answered, and the chunks made answer a subsequence of them, in order |
| Conservation.CreditConserved | common/src/tox/tox.cc:560-576 | credit out plus credit forgotten by evictions equals requests and chunks under way plus requests used up without a reply, for every file in every reachable state; never below minus the forgotten credit |
| Conservation.CreditBounds | common/src/tox/tox.cc:603-608 | without an eviction of the file its credit lies in 0..16 and bounds its traffic |
| Conservation.ChunksInOrder | common/src/tox/tox_if_impl.cc:204-214 | the chunks given to toxcore answer, with the same positions and sizes and in order, a subsequence of the requests it made |
| Conservation.NothingLost | common/src/tox/tox.cc:493-505 | every request is forwarded, waiting, dropped or evicted; without the last two, requests made = forwarded ++ waiting, and those the work thread handled are the first of those made |
| Answers.WhoReplies | common/src/transfer/transfer_ctrl.cc:136-284 | in every reachable node: a reception under a free id is answered with a resume for it, opened or not, and under a taken id not at all, and its file is emptied either way if the open succeeds; a request is answered with a chunk of its position and size or not at all; nothing else is answered |
| Answers.ReceptionEmpties | common/src/transfer/transfer_ctrl.cc:136-138 | in every reachable node: the file of a reception that could be opened is empty right after, even if the id is taken |
| Answers.AnswersReachToxcore | common/src/tox/tox_if_impl.cc:109-121 | in every reachable node: the answers of the work thread, resumes and chunks, are those given to toxcore and those on their way, in order; toxcore is given nothing else but the requests of `send_path` |
| Answers.ResumesAreReceptions | common/src/transfer/transfer_ctrl.cc:136-146 | in every reachable node: as many resumes for an id were given, or are on their way, as receptions began a transfer for it |
| Delivery.SendsInOrder | common/src/tox/tox.cc:539-547 | over every run: the requests of `send_path` reach toxcore in the order in which they were pushed, none lost or made up |
| Delivery.RefusalsAreReported | common/src/tox/tox.cc:549-568 | over every run: each chunk or control that toxcore refuses is reported exactly once, in order |
| Delivery.NothingIgnored | common/src/tox/tox_if_impl.cc:180-238 | over every run: while a callback is registered no file event is dropped |
| Delivery.NothingHandedOn | common/src/tox/tox_if_impl.cc:180-238 | over every run: while none is registered none is handed on |
| Delivery.CallbackIsLastSet | common/src/tox/tox_if_impl.cc:180-238 | over every run: whether a callback is registered is what the last registration or removal said |
| Delivery.NoEmptyHanded | common/include/toxfs/util/message_queue.hh:227-239 | over every run: while a message waits in `send_queue` the timed pop of the loop thread does not come back without one |
| Deadlock.StuckIffAllBlocked | common/include_private/toxfs_priv/tox/tox_if_impl.hh:32-35 | no thread can step if and only if all three are blocked on full queues; then exactly 1282 messages are under way |
| Deadlock.QueuesAreBounded | common/include_private/toxfs_priv/tox/tox_if_impl.hh:32-35 | in every reachable node the queues hold at most 512, 256 and 512 messages |
| Deadlock.StuckForEver | common/src/tox/tox.cc:603-608 | a stuck node never moves again, whatever toxcore, the clock and the user do |
| Deadlock.LoadBound | common/src/tox/tox.cc:603-608 | without evictions the windows bound the messages under way by 16 per file plus the others |
| Deadlock.NotStuck | common/include/toxfs/transfer/transfer_ctrl.hh:99 | while 16 per file plus the other messages is less than 1282, some thread can step |
| Deadlock.EightyFilesNeverStuck | common/src/tox/tox.cc:603-608 | with chunk requests and chunks of at most 80 files the threads are never stuck |
| DeadlockWitness.EightyOneFilesCanDeadlock | common/src/tox/tox.cc:603-608 | with 81 files a stuck state is reachable |
| Drain.StepLightens | common/src/tox/tox.cc:375-398 | without new work no step adds weight, and each that moves a message takes some away |
| Drain.MovesAreBounded | common/src/tox/tox.cc:375-398 | so every run has a bounded number of moves, under any interleaving and with evictions |
| Drain.AtRestIff | common/src/tox/tox.cc:375-398 | no thread can step, other than by polling an empty queue, if and only if nothing is left in any queue or hand, or all three block each other |
| Drain.RunsAreBounded | common/src/tox/tox.cc:375-398 | without new work, every run up to a poll of the empty queue has at most W(5+2n)+p thread steps, for weight W, n entries now or later, and p steps to the next pop |
| Drain.RestIsReached | common/src/tox/tox.cc:375-398 | from every reachable state the threads alone can come to rest |
| Drain.RestIsQuiescence | common/src/tox/tox.cc:603-608 | below the bound on messages, threads that are at rest have nothing left |
| Quiescence.StallCharacterised | common/src/tox/tox.cc:560-576 | at rest, evictions or not, requests wait only if 16 credits and those evictions forgot were used up without a reply; requests made = chunks given + used up + waiting + lost |
| EdgeCases.StallIsReachable | common/src/transfer/transfer_ctrl.cc:229-232 | a node at rest with a waiting request is reachable |
| EdgeCases.CreditCanGoNegative | common/src/tox/tox.cc:571-573 | an eviction with a chunk under way leads to a credit of -1 |
| EdgeCases.TakenIdSendsTheOldFile | common/src/transfer/transfer_ctrl.cc:113-117 | a reachable node in which a second registration under a taken id was lost and its request was answered with bytes of the first file |
| Lifecycle.LifeOfReachable | common/src/transfer/transfer_ctrl.cc:136-284 | in every reachable state existence, kind and activity of a transfer follow from the events alone, by rules without files or errors |
| Lifecycle.BeginsAndEnds | common/src/transfer/transfer_ctrl.cc:113-284 | in any log: a transfer ends exactly by a cancel, the empty request of an active sender or the empty chunk of an active receiver; only a registration or a reception under a free id makes one, of its own path and size, and open exactly if the file could be opened |
| Lifecycle.UnopenedMovesNothing | common/src/transfer/transfer_ctrl.cc:31-36 | in every reachable node: nothing is sent or stored for a transfer whose file could not be opened |
| Lifecycle.ActiveIsLastControl | common/src/transfer/transfer_ctrl.cc:144-171 | since its registration a transfer is active exactly if the last control was a resume; at first a sent one is not and a received one is |
| Lifecycle.OnlyActiveTransfersMove | common/src/transfer/transfer_ctrl.cc:188-198 | chunks are sent only for an active sending transfer and stored only for an active receiving one |
| Lifecycle.NothingAfterTheEnd | common/src/transfer/transfer_ctrl.cc:157-162 | after a cancel or an end of file no chunk is sent or stored for the id until it is registered or received again |
| Lifecycle.EarlyResumeIsLost | common/src/transfer/transfer_ctrl.cc:113-117 | a resume run before the registration is lost: no request is ever answered without another control |
| Lifecycle.FreshIdsKeepTheirFile | common/src/transfer/transfer_ctrl.cc:113-117 | a registration under a fresh id makes the transfer of its own file, open exactly if the file could be opened, and it stays that whatever is run in between, until a cancel or an end of file |
| Lifecycle.RegistrationCountsIff | common/src/transfer/transfer_ctrl.cc:113-117 | until the transfer ends, it is the one that a registration makes if and only if the id was free or had a transfer of just that file; under a taken id the registration is lost and the old transfer goes on |
| Lifecycle.RegisteredFileIsThere | common/src/transfer/transfer_ctrl.cc:113-117 | the same in every reachable node, where the open, unless the system refused it, found exactly what was on the disk at that moment |
| FileUse.StepRecalls | common/src/tox/tox.cc:375-398 | no step looks at the logs, so a node whose logs begin anywhere takes the same steps |
| FileUse.UseSound | common/src/tox/tox.cc:493-642 | in every use of an id, of any node with any past, the window, the flow, the replies and the transfer of the file are as its logs since then say, and at most 16 credits were spent before |
| FileUse.UseDisk | common/src/transfer/transfer_ctrl.cc:182-284 | and the disk, and what the closures of the file find there, follow from the disk at the start of the use |
| FileUse.RestIsFree | common/src/transfer/transfer_ctrl.cc:200-205 | a node at rest is a start of the next use of every id whose transfer is over and that no request waits for |
| FileUse.LifeIsUse | common/src/transfer/transfer_ctrl.cc:38-46 | the whole life of a node is a use of each id, with nothing spent |
| FileUse.EvictionForgives | common/src/tox/tox.cc:612-640 | an eviction of the file in the use makes up for all credit spent before it |
| RoundTrip.UndisturbedIsFound | common/src/transfer/transfer_ctrl.cc:207-220 | if the registration was run first and nothing is saved to its path, every closure of the file finds its piece |
| RoundTrip.GivenArePieces | common/src/transfer/transfer_ctrl.cc:207-220 | in every use of an id, at every moment, toxcore was given exactly the first pieces of the file, in order |
| RoundTrip.FewUnanswered | common/src/transfer/transfer_ctrl.cc:200-205 | no request of the use goes without a reply before the script is over, and then at most one, so a use alone never stalls its window |
| RoundTrip.SenderDone | common/src/transfer/transfer_ctrl.cc:180-234 | at rest, with fewer than 16 credits withheld and all pieces asked for, all were given; with the script over, the transfer is gone |
| RoundTrip.ReceiverDone | common/src/transfer/transfer_ctrl.cc:236-285 | at rest with all pieces carried the file is complete and the transfer is gone, whatever was received under the id or to the path before |
| RoundTrip.ReceivedIsPrefix | common/src/transfer/transfer_ctrl.cc:236-285 | at every moment of the two uses the received file is a prefix of the sent one |
| RoundTrip.FileArrives | common/src/transfer/transfer_ctrl.cc:121-285 | end to end, in any use of the two ids with fewer than 16 credits withheld, for any contents, any split into pieces, any interleaving and other files at the same time: the received file equals the sent one and both transfers are gone |
| RoundTripLimits.LateIsSilent | common/src/transfer/transfer_ctrl.cc:113-117 | if the registration is run behind a step of the script, nothing is given |
| RoundTripLimits.SpentIsSilent | common/src/tox/tox.cc:603-608 | while 16 credits are withheld from the use, nothing is given for its id, in any node |
| RoundTripLimits.FileCostsOneCredit | common/src/transfer/transfer_ctrl.cc:200-205 | a file sent to its end leaves its id free, with one credit more withheld from the next use |
| RoundTripLimits.AllGivenLosesNone | common/src/tox/tox.cc:610-641 | if all pieces were given, the request for each of them was run; so if a request for a piece is lost by an eviction, or dropped for want of a callback, or still waits, the file is not sent in full |
| RoundTripLimits.AllGivenIff | common/src/transfer/transfer_ctrl.cc:180-234 | at rest with all pieces asked for, all were given if and only if the registration was run first, fewer than 16 credits are withheld, and each closure found its piece at its offset on the disk; or there is no piece |
| RoundTripLimits.ArrivesIff | common/src/transfer/transfer_ctrl.cc:121-285 | when nothing is saved to its path, the file arrives if and only if its registration was run first and fewer than 16 credits are withheld, or it is empty |
| RoundTripWitness.RoundTripHappens | common/src/transfer/transfer_ctrl.cc:121-285 | the assumptions of the round trip are met by a receiving node and a sending one that has sent up to 15 files under the same id before |
| RoundTripFailures.LateRegistrationHappens | common/src/transfer/transfer_ctrl.cc:113-117 | a node at rest in which the registration was run second and nothing was sent |
| RoundTripFailures.EmptiedFileIsNotSent | common/src/transfer/transfer_ctrl.cc:31-36 | a node at rest in which a file received under the same name emptied the one being sent, its piece was not found and nothing was sent |
| RoundTripFailures.SeventeenthIsNotSent | common/src/tox/tox.cc:603-608 | 16 files are sent to their end under one id without an eviction; the next is registered first and on the disk, and the node is at rest with its request waiting and nothing given |
| SendPath.SendFiles | common/src/transfer/transfer_ctrl.cc:96-118 | one send request per file in order, and a registration for each file before the first failing future |
| SendPath.RegistrationsMatch | common/src/transfer/transfer_ctrl.cc:108-118 | file i is registered if and only if it and all files before it were accepted, under its own id with its own path and size |
| SendPath.PromisesFulfilledOnce | common/src/tox/tox.cc:84-96 | with any other producers on the bounded queue, toxcore is called with each message that carries a promise in the order of the pushes and once; a promise is fulfilled exactly by its call |
| SendPath.FutureIsOfItsFile | common/src/tox/tox.cc:539-547 | the i-th future yields what the one call of tox_file_send for the i-th file's name and size, and this friend, yielded |
| SendPath.FuturesPair | common/src/tox/tox_if_impl.cc:109-121 | each file is registered with its own path and size under the id that toxcore assigned when called with this very file |
| SendPath.AllAskedFirst | common/src/transfer/transfer_ctrl.cc:96-118 | no future is looked at, and nothing registered, before all files of the call were asked for |
| SendPath.FailureStops | common/src/transfer/transfer_ctrl.cc:108-118 | if a future fails, exactly the files before it are registered, and toxcore refused this very file |
| SentFiles.QueuedAreRun | common/src/transfer/transfer_ctrl.cc:113-117 | at rest, the registrations that the work thread ran in a use of an id are those queued in it, in their order |
| SentFiles.LaunchedIsOffered | common/src/transfer/transfer_ctrl.cc:96-118 | a file that `send_path` registers meets the premises of the round trip about the registration |
| SentFiles.AnnouncedAsPushed | common/src/transfer/transfer_ctrl.cc:96-118 | the other side is told first of the name and size that the call pushed, in the call of toxcore that assigned the id |
| SentFiles.SentFileArrivesIff | common/src/transfer/transfer_ctrl.cc:54-118 | from a call of `send_path`: the file arrives if and only if its registration was run first and fewer than 16 credits are withheld from the id it was assigned, or it is empty |

## Left out

- FileArrives: assumes, for this use of the two ids, that the work thread runs the registration before the resume, that every piece is found on the disk when it is read, and that fewer than 16 credits are withheld (the code ensures none of these; `RoundTripLimits` says exactly what follows without them and `RoundTripFailures` shows that each goes wrong). It also assumes that no eviction loses a waiting request of the sent file (a lost request for a piece means that the file is not sent in full, `RoundTripLimits.AllGivenLosesNone`), that the file system meets no fault for the file on either side, that the callback is registered, that no other transfer saves to the destination path, that either id was free when its use began, and that toxcore is a reliable channel in order that resumes the transfer once and pauses or cancels nothing.
- AllGivenIff: what a receiver makes of the pieces of a file that changed on the disk while it was sent is stated chunk by chunk (`SeekCacheRuns.ReplyComesFromHead`, `StoredFiles.DiskHoldsTheChunks`), not as a condition on the whole file.
- SentFileArrivesIff: the states of `SendPath` and of a node are joined through the closures that the one queues and the other runs; the messages that `send_path` pushes on `send_queue` are steps of a node, but not compared one by one.
- RunIsAtomic: the queues inside `Node` and `SendPath` are the atomic bounded queues that this lemma reduces the monitor to, but the state machines are not composed into one. Fairness between blocked threads is not modelled.
- RunsAreBounded: counts the steps up to a poll of the empty `send_queue`; how often the loop thread polls while the other threads are busy depends on the scheduler.
- StuckIffAllBlocked: about file traffic. Friend requests and messages also go through `recv_queue` and `send_queue`, an accepted request makes the message thread push on `send_queue` (`common/src/tox/tox_if_impl.cc:145-160`), and the queue of friend messages can block it; none of that is modelled.
- FuturesPair: `get_connection_status` never fulfils its promise (an unfinished stub, `common/src/tox/tox.cc:517-520`) and is not part of the model.
- RunRequest: only a request of 2^63 bytes or more is refused a buffer; running out of memory for less is not modelled.
- RunChunk: a read or write sees the file as it is on the disk; buffering inside `std::fstream`, and changes of the disk by other programs, are not modelled.
- The threads, as opposed to the objects they use, are a state machine on values and not classes, because they interleave. What a closure does to its transfer after its push on `send_queue` is merged into the step that runs it; only the work thread sees the transfers.
- toxcore itself, bootstrapping, saved state, and friend and group callbacks: foreign calls. Toxcore is an environment that issues events and accepts or refuses messages.
- Friend requests, friend messages and the command loop: besides sharing two queues with the files, as said above, they use none of the state modelled here.
- Avatars in `on_file_recv`: dropped before they reach a queue.
- Clocks and sleeping: time is a number that can grow between any two steps, and a wait may end at any moment.
- The file system calls of `send_path` and the handling of paths: only the resulting list of files is modelled. The by-reference capture of `filesize` is modelled as a value.
- Starting and joining threads, `shared_ptr` buffers, move semantics: memory management of C++.
- `locked_queue`, registration of callbacks beyond on and off, conversion of enumerations, logging and texts of exceptions: only easy members.
