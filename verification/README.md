# Peregrine in Dafny

A model of Peregrine's chunked transfer protocol and of the structures around it, with
proofs. Peregrine moves batches of buffers between hosts: an engine cuts each request of
a post into chunks and spreads them over workers, a PostInfo frame announces the batch on
every channel, the receiver resolves addresses, takes exclusive write access to each
chunk, stores it and acknowledges it, and trackers on both sides turn chunk bits into
completed posts.

The central result is `Theorems.ReportedMeansArrived`: in every run, when an application
is told that a post has succeeded, every byte of every request is equal at both ends.
`Origins.ReportedMeansMoved` says the same in terms of the calls the application made and the
addresses its resolve callback answered.
Where the code does not keep a promise, a run shows it and an equivalence says when it does:
reads from oneself (`Example.PendingInRangeExactly`, `Example.CallbackIsTrueExactly`),
handles used by two hosts (`Theorems.AckAbortsExactly`, `Example.LateAck`) and duplicates of
a completed read (`Theorems.FindMissesExactly`, `Example.LateFind`).

## Files

| file | content |
|---|---|
| Layout.dfy | how a request is cut into chunks |
| Trackers.dfy | values of the chunk and request trackers, shared by the classes and the protocol |
| ChunkTracker.dfy, RequestTracker.dfy, Ids.dfy | the classes, and what holds over any sequence of calls |
| Protocol.dfy | the protocol as a transition system |
| Invariant.dfy | the data half of the invariant: what is where, and who may write it |
| Safety.dfy, Counting.dfy, Delivery.dfy | every step keeps it |
| Completion.dfy | the other half: who is told what, and how often |
| Theorems.dfy, Example.dfy | what follows for every run, and runs to success and into each failure |
| Origins.dfy | the same in terms of what the application and its callbacks gave at earlier steps |
| Worker.dfy, Streams.dfy | send queues, and from there to the trackers of the receiver |
| Transfer.dfy, Codec.dfy | framing on streams and message channels, wire format |
| Receiving.dfy | the byte-level receive path as steps of the protocol |
| IoVec.dfy, HostText.dfy, Trace.dfy | scatter-gather loops, host text, trace rendering |
| TcpManager.dfy, TcpContainers.dfy | socket ownership across threads, and the containers |
| RdmaMemory.dfy, ConnPool.dfy, RateLimiter.dfy | region index, connection pool, rate limiter |
| Options.dfy | optional values |

## The protocol

A state of the transition system holds the memory of all hosts, the incoming and outgoing
tables of all hosts, every worker's program counter, and the set of all frames ever
written. A receive step may take any frame any number of times, which covers streams that
fail and message channels that lose, duplicate and reorder. A step is one critical section
of the code, or one byte stored by a channel read, so threads interleave between any two of
these; Find and Acquire are two. Check and GetChunkAddr are one: a chunk that either turns
down is dropped, so what counts is the state the second one sees. The peer a data chunk is
looked up under is arbitrary, since any earlier PostInfo on the channel may have set it.

Posts are known by their initiator and its handle, and two hosts may use one handle. Lookups
use what the code has: the handle of a frame, the peer of its channel, the request id. That
a frame also names its post is history, which steps only use to record what was delivered.

Hypotheses, all in the guards of the steps (`CanEnqueue`, `CanProcess`, `CanRecvInfo`, and
the guard of `AppStore`):

- A host does not use a handle twice, and nobody uses a request id twice. Both are 32-bit
  counters from random starts (`peregrine/src/internal/engine/engine.cc:83`);
  `Ids.IdsRepeatLate` says when one repeats itself. Two hosts may draw the same handle, and
  then Enqueue and the responder find it taken as the code does.
- The requests of posts whose buffers are in use do not clash: none is written over the
  destination or the source of another or over its own source, and the application stores
  only to other bytes. Buffers are free again when success is reported, but for a read from
  oneself, of which a late copy may still be stored over its source (`Example.LateEcho`).

Progress is not claimed.

## Model

| member | source | states |
|---|---|---|
| `Theorems.ReportedMeansArrived` | peregrine/src/internal/transfer/transfer.cc:180-249 | In every run, for every post, at the step that tells the application of success (callback or poll, write or read), every byte of every request it asked for is equal at source and destination, and the route of each request is the one asked for. |
| `Theorems.SuccessMeansArrived` | peregrine/src/internal/request/request_tracker.cc:28-46 | A tracker status of success at the initiator already implies that all bytes of the post have arrived. |
| `Theorems.PostCallbackOnce` | peregrine/src/internal/request/request_tracker.cc:122-168 | The receiver's post callback runs at most once, and, unless the post is a read from oneself, only when every chunk of every request is DONE; until the buffers are free again the bytes are there. |
| `Theorems.PendingNeverNegative` | peregrine/src/internal/request/request_tracker.cc:134-135 | In every entry of a post that is not a read from oneself, pending_reqs stays between 0 and the number of requests, however Release and OnReqComplete interleave. |
| `Theorems.CountsDownFromPositive` | peregrine/src/internal/request/request_tracker.cc:122-135 | Every OnReqComplete that finds its entry finds a count of at least 1, unless the post is a read from oneself. |
| `Example.PendingInRangeExactly` | peregrine/src/internal/request/request_tracker.cc:134-135 | The counts of a post stay in range in every reachable state if and only if it is a write or its two ends differ. |
| `Example.CallbackIsTrueExactly` | peregrine/src/internal/request/request_tracker.cc:137-168 | The post callback runs only when all chunks are DONE, in every reachable state, if and only if the post is a write or its two ends differ. |
| `Example.SelfReadUnderflows` | peregrine/src/internal/engine/engine.cc:330-335 | For every handle a run of a read from oneself takes the count of the responder to -1. |
| `Example.SelfReadLies` | peregrine/src/internal/transfer/transfer.cc:200-231 | For every handle a run of a read from oneself runs the post callback with nothing delivered: its data is looked up under its own endpoint and lands in the entry of the responder. |
| `Example.LateEcho` | peregrine/src/internal/transfer/transfer.cc:200-225 | A chunk of a read from oneself may be written over its source after success was reported, so its buffers cannot be free by then. |
| `Theorems.UnresolvedRegistersNothing` | peregrine/src/internal/request/request_tracker.cc:80-98 | A PostInfo with an address that does not resolve leaves the whole state as it was. |
| `Theorems.ReadServedOnce` | peregrine/src/internal/engine/engine.cc:328-364 | However many copies of its PostInfo arrive, a read is handed to the responder exactly once, by the copy that registers it. |
| `Theorems.DoneCallbackOnce` | peregrine/src/internal/request/request_tracker.cc:170-204 | on_complete runs at most once, when all chunks are delivered, with the entry already erased. |
| `Theorems.AckAbortsExactly` | peregrine/src/internal/request/request_tracker.cc:170-183 | An acknowledgement makes the at() in Update throw if and only if the outgoing entry under its handle belongs to another post. |
| `Theorems.AckNeverAborts` | peregrine/src/internal/request/request_tracker.cc:181-183 | It never throws where no other post sends from the same host under the same handle. |
| `Example.LateAck` | peregrine/src/internal/request/request_tracker.cc:181-183 | For every handle and two hosts a run reaches the abort: the read has been served, the responder has made a post of its own under the handle, and a duplicate acknowledgement arrives. |
| `Theorems.FindMissesExactly` | peregrine/src/internal/transfer/transfer.cc:209-219 | The at() in Find throws for a looked-up chunk, and Acquire goes through a dangling reference, if and only if the chunk was looked up in the own entry of an initiator whose read has been reported since; then all of the read is there. |
| `Example.LateFind` | peregrine/src/internal/transfer/transfer.cc:209-215 | For every handle and two hosts a run reaches the abort in Find: the thread that received the last chunk looked a copy of it up before the read was polled. |
| `Example.LateAcquire` | peregrine/src/internal/transfer/transfer.cc:215-219 | The same for the dangling reference: it had found the tracker before the poll. |
| `Theorems.WriterIsAlone` | peregrine/src/internal/transfer/transfer.cc:220-231 | A thread that acquired a chunk is its only writer in the entry, the chunk is not DONE and its buffers in use, and its Release always finds the tracker. |
| `Theorems.AcceptedStays` | peregrine/src/internal/transfer/transfer.cc:172-177 | Once a PostInfo is accepted its entry stays, with exactly its requests, so later data finds them. |
| `Theorems.AcceptedIsLocated` | peregrine/src/internal/transfer/transfer.cc:200-214 | A data frame of an accepted write, looked up under the initiator, gets past Check and GetChunkAddr, at its offset in the resolved buffer. |
| `Streams.StreamFindsHandle` | peregrine/src/internal/transfer/transfer.cc:195-214 | A receive thread that reached a chunk of a write of the sender on its stream, with every PostInfo before it accepted, looks it up under the sender and gets past Check and GetChunkAddr, for every interleaving of the send threads and every run of the protocol. |
| `Streams.TookIsRegistered` | peregrine/src/internal/transfer/transfer.cc:172-177 | A post for which Add has returned true, as the first PostInfo or a copy, is registered from then on. |
| `Theorems.DestinationIsResolved` | peregrine/src/internal/request/request_tracker.cc:79-98 | The destination of a write is the address in the tracker of the target; Origins.DestinationIsAnswered says which that is. |
| `Origins.ReportedMeansMoved` | peregrine/src/internal/transfer/transfer.cc:180-249 | When success is reported, every byte of every request the application gave to Process is equal at its own buffer and at the far one: at the address it asked for or, for a null one, at the address the resolve callback answered at an earlier step. |
| `Origins.FarEndIsAnswered` | peregrine/src/internal/request/request_tracker.cc:79-98 | In every run the far end of a route is at the target of the post, at the address asked for, or for a null one at exactly what the resolve callback answered when the PostInfo arrived. |
| `Origins.DestinationIsAnswered` | peregrine/src/internal/request/request_tracker.cc:82-100 | What the tracker of the target holds for a write is the address asked for, or for a null one exactly what the resolve callback answered. |
| `Origins.CallbackGetsMetadata` | peregrine/src/internal/request/request_tracker.cc:149-166 | In every run the receiver's post callback gets exactly the metadata the application gave to the post and, under each request id, to that request. |
| `Origins.AskedFrom` | peregrine/src/internal/engine/engine.cc:219-291 | Every request of a state was given to Process at an earlier step, as it is. |
| `Origins.PostedBy` | peregrine/src/internal/engine/engine.cc:181-205 | Every post of a state was given to Enqueue at an earlier step, as it is. |
| `Theorems.PollReportsExactly` | peregrine/src/internal/engine/engine.cc:207-217 | A poll reports success if and only if every chunk of the post is DONE at its initiator and no entry of another post is found first; then it erases the entry, otherwise nothing changes. |
| `Theorems.StepKeeps` | peregrine/src/internal/engine/engine.cc:219-364 | Every step of every thread keeps both halves of the invariant. |
| `Theorems.RunKeeps` | peregrine/src/internal/transfer/transfer.cc:87-98 | The invariant holds in every state of every run. |
| `Example.SuccessIsPossible` | peregrine/src/internal/transfer/transfer.cc:180-249 | For every handle and two hosts a run leads from a posted read to its reported success, so the statements about runs are not empty. |
| `Safety.EnqueueKeeps` | peregrine/src/internal/engine/engine.cc:181-205 | Registering a post keeps the data invariant, whether or not its handle is taken. |
| `Safety.SendChunkKeeps` | peregrine/src/internal/transfer/transfer.cc:70-85 | A data frame carries the bytes its source holds, and they stay the same until the buffers are free. |
| `Safety.SentIsOk` | peregrine/src/internal/engine/engine.cc:301-322 | What a sender cuts from its own descriptors is a chunk as the other end expects it. |
| `Safety.RecvDataKeeps` | peregrine/src/internal/transfer/transfer.cc:195-214 | Looking a chunk up by any channel peer finds an entry of its own post or none: the one it is to be received in, but for reads from oneself. |
| `Safety.FindKeeps` | peregrine/src/internal/transfer/transfer.cc:215-215 | Holding a reference to the tracker changes nothing. |
| `Safety.AcquireKeeps` | peregrine/src/internal/transfer/transfer.cc:219-223 | Acquire gives a chunk that is neither busy nor DONE to one writer. |
| `Safety.StoreByteKeeps` | peregrine/src/internal/transfer/transfer.cc:224-225 | Each stored byte leaves delivered chunks, other writers and all sources alone. |
| `Counting.ReleaseSuccessKeeps` | peregrine/src/internal/transfer/transfer.cc:226-234 | A chunk is marked DONE only when its whole payload is in place. |
| `Counting.ReleaseFailureKeeps` | peregrine/src/internal/transfer/transfer.cc:226-232 | A failed read makes the chunk EMPTY again. |
| `Safety.SendAckKeeps` | peregrine/src/internal/transfer/transfer.cc:113-124 | Acknowledgements are written only for DONE chunks. |
| `Counting.CompleteFinishedKeeps` | peregrine/src/internal/request/request_tracker.cc:122-168 | Counting a finished request: each is counted once, and the last one may drop and report the post. |
| `Counting.CompleteTargetKeeps` | peregrine/src/internal/engine/engine.cc:330-335 | The acknowledged write behind a served read counts against the entry of the read and no other. |
| `Safety.AppStoreKeeps` | peregrine/src/internal/transfer/transfer.cc:180-249 | The application may store to any byte of no buffer in use. |
| `Delivery.ProcessKeeps` | peregrine/src/internal/engine/engine.cc:219-291 | Cutting a post into chunks and announcing it keeps the data invariant, for writes and reads. |
| `Delivery.RecvInfoKeeps` | peregrine/src/internal/transfer/transfer.cc:155-178 | Accepting, repeating or rejecting a PostInfo keeps the data invariant. |
| `Delivery.RespondKeeps` | peregrine/src/internal/engine/engine.cc:328-364 | Claiming a read in outgoing and queueing it with the descriptors received keeps the data invariant, and so does dropping it when the handle is taken. |
| `Delivery.ServedLoadOk` | peregrine/src/internal/engine/engine.cc:339-364 | Cut by the length and the number of chunks on the wire, the chunks of a served read have the boundaries the initiator chose, from the addresses the responder resolved. |
| `Delivery.ProcessReadKeeps` | peregrine/src/internal/engine/engine.cc:253-291 | Taking up a queued read fills the outgoing entry with the requests of the read. |
| `Delivery.RecvAckKeeps` | peregrine/src/internal/request/request_tracker.cc:170-204 | An acknowledgement sets only bits of chunks that were written; at the last one the entry goes and success is reported or relayed. |
| `Delivery.PollKeeps` | peregrine/src/internal/engine/engine.cc:207-217 | Polling removes and reports only complete posts. |
| `Completion.RecvInfoTold` | peregrine/src/internal/request/request_tracker.cc:57-112 | Registering a post sets its count, and for a read makes one worker the responder; no other post is concerned. |
| `Completion.RespondTold` | peregrine/src/internal/engine/engine.cc:328-337 | A claimed read moves to the queue, with an empty outgoing entry and no second responder; one whose handle is taken is dropped. |
| `Completion.ProcessReadTold` | peregrine/src/internal/engine/engine.cc:253-291 | A queued read moves to the send workers, its entry now with requests. |
| `Completion.RecvAckTold` | peregrine/src/internal/request/request_tracker.cc:170-204 | The acknowledgement that completes a post runs on_complete or makes one worker owe the relayed completion. |
| `Completion.CompleteFinishedTold` | peregrine/src/internal/request/request_tracker.cc:122-168 | The count reaches zero when the post callback runs, and not before. |
| `Completion.CompleteTargetTold` | peregrine/src/internal/engine/engine.cc:330-335 | The relayed completion takes the responder's count from one to zero, once, unless the post is a read from oneself. |
| `Completion.PollTold` | peregrine/src/internal/engine/engine.cc:207-217 | A poll that reports success drops the entry, so no callback follows. |
| `Layout.ProcessWrite` | peregrine/src/internal/engine/engine.cc:293-326 | Crashes iff a chunk exceeds 32 bits; otherwise hands out nchunks non-empty chunks that tile [0, len) in order, at the same offset of both buffers, round-robin over the workers. |
| `Layout.CutsPartition` | peregrine/src/internal/engine/engine.cc:301-306 | For 1 <= nchunks <= len the offsets i*q + min(i, r) partition [0, len), with sizes differing by at most 1. |
| `Layout.OffsetStep` | peregrine/src/internal/engine/engine.cc:306-322 | The closed form of the offset advances by the size of the chunk. |
| `Layout.CutsCover` | peregrine/src/internal/engine/engine.cc:304-325 | Every byte lies in some chunk. |
| `Layout.CutsDisjoint` | peregrine/src/internal/engine/engine.cc:304-325 | No byte lies in two chunks. |
| `ChunkTracking.Bitset.constructor` | peregrine/src/internal/lib/bitset.h:24-28 | A new bitset stands for the empty set, unused trailing bits cleared. |
| `ChunkTracking.Bitset.Get` | peregrine/src/internal/lib/bitset.h:44-47 | Reads membership of the index. |
| `ChunkTracking.Bitset.Set` | peregrine/src/internal/lib/bitset.h:50-53 | Adds exactly the index. |
| `ChunkTracking.Bitset.Reset` | peregrine/src/internal/lib/bitset.h:56-59 | Removes exactly the index. |
| `ChunkTracking.Bitset.Count` | peregrine/src/internal/lib/bitset.cc:15-19 | The sum over the units is the size of the set, and at most the size of the bitset. |
| `ChunkTracking.Bitset.IsEmpty` | peregrine/src/internal/lib/bitset.cc:21-24 | All units empty iff the set is. |
| `ChunkTracking.Bitset.IsFull` | peregrine/src/internal/lib/bitset.h:65-65 | Count equals size iff every index is present. |
| `ChunkTracking.MembersStep` | peregrine/src/internal/lib/bitset.h:72-88 | One more unit adds the indices of its bits and no others, so unit and bit index never clash. |
| `ChunkTracking.ChunkTracker.constructor` | peregrine/src/internal/chunk/chunk_tracker.cc:14-21 | All chunks EMPTY. |
| `ChunkTracking.ChunkTracker.IsDone` | peregrine/src/internal/chunk/chunk_tracker.h:74-77 | True iff every chunk is DONE. |
| `ChunkTracking.ChunkTracker.Set` | peregrine/src/internal/chunk/chunk_tracker.cc:23-28 | Marks a chunk that nobody writes. |
| `ChunkTracking.ChunkTracker.Acquire` | peregrine/src/internal/chunk/chunk_tracker.cc:30-43 | Returns the state of the chunk and makes an EMPTY one BUSY; counts busy duplicates. |
| `ChunkTracking.ChunkTracker.Release` | peregrine/src/internal/chunk/chunk_tracker.cc:45-58 | BUSY becomes DONE or EMPTY; true iff this was the last chunk. |
| `ChunkTracking.RunOk` | peregrine/src/internal/chunk/chunk_tracker.h:26-43 | Over any run of well-behaved writers each chunk has at most one holder, is BUSY iff held, BUSY and DONE are disjoint and DONE is final. |
| `ChunkTracking.LastReleaseOnce` | peregrine/src/internal/chunk/chunk_tracker.cc:45-58 | From a new tracker, Release has returned true exactly once if all chunks are DONE and never otherwise. |
| `RequestTracking.PostComplete` | peregrine/src/internal/request/request_tracker.cc:28-34 | The loop over the requests decides: at least one, and all of them full. |
| `RequestTracking.RequestTracker.Check` | peregrine/src/internal/request/request_tracker.cc:36-46 | Not found, in progress or success, by the state of the entry. |
| `RequestTracking.RequestTracker.AddPost` | peregrine/src/internal/request/request_tracker.cc:48-55 | Inserts an empty entry of our own unless the key is taken. |
| `RequestTracking.Describe` | peregrine/src/internal/request/request_tracker.cc:79-106 | The loop of Add: it fails iff the post is remote and some descriptor has neither an address of its own nor an answer other than null; with distinct ids there is one tracker per descriptor, with no chunk done, its own metadata, and as address its own or, for a null one, exactly what the callback answers for its id. |
| `RequestTracking.RequestTracker.Add` | peregrine/src/internal/request/request_tracker.cc:57-112 | Registers the batch as a whole or not at all, each descriptor under its own or its answered address; asks for a read to be served only when it registers one, with the descriptors changed in nothing but the answered addresses. |
| `RequestTracking.ResolvesById` | peregrine/src/internal/request/request_tracker.cc:79-101 | With distinct ids, list and map of descriptors agree. |
| `RequestTracking.RequestTracker.Remove` | peregrine/src/internal/request/request_tracker.cc:114-120 | Removes the entry and no other. |
| `RequestTracking.RequestTracker.OnReqComplete` | peregrine/src/internal/request/request_tracker.cc:122-168 | Counts down; at zero erases and calls on_complete, or calls the post callback with all metadata. |
| `RequestTracking.CallbackGetsMetadata` | peregrine/src/internal/request/request_tracker.cc:57-168 | After the Add of a remote post, whatever calls follow on whatever entries, the OnReqComplete that takes its count to zero, and no other, calls the post callback, with the metadata of the post and that of each descriptor under its id. |
| `RequestTracking.RequestTracker.Update` | peregrine/src/internal/request/request_tracker.cc:170-204 | Aborts iff the entry lacks the request; otherwise sets the chunk, and on completion erases the entry and calls on_complete. |
| `RequestTracking.RequestTracker.GetChunkAddr` | peregrine/src/internal/request/request_tracker.cc:206-217 | Base plus offset, or null if entry, request or address is missing. |
| `RequestTracking.CallbackExactly` | peregrine/src/internal/request/request_tracker.cc:170-204 | For every sequence of acknowledgements, duplicates included, on_complete runs once if they cover the post and never otherwise, and the entry is gone iff it ran. |
| `RequestTracking.StatusExactly` | peregrine/src/internal/request/request_tracker.cc:36-46 | Without a callback the status is success iff the acknowledgements cover the post. |
| `RequestTracking.SuccessStays` | peregrine/src/internal/request/request_tracker.cc:170-204 | Success is kept under further acknowledgements, and their order is irrelevant. |
| `Ids.IdGenerator.Gen` | peregrine/src/internal/engine/engine.h:109-120 | The next 32-bit value, wrapping and skipping 0. |
| `Ids.IdsRepeatLate` | peregrine/src/internal/engine/engine.h:109-120 | No id is 0, and two are equal exactly when a multiple of 2^32 - 1 calls lies between them. |
| `Sending.Worker.EnqueueInfo` | peregrine/src/internal/engine/worker.cc:59-68 | Appends to the info queue. |
| `Sending.Worker.EnqueueChunk` | peregrine/src/internal/engine/worker.cc:70-79 | Appends to the chunk queue. |
| `Sending.Worker.SendOnce` | peregrine/src/internal/engine/worker.cc:85-143 | One round of SendLoop: infos first; a failed write ends a stream worker and loses one frame of a message worker. |
| `Sending.Process` | peregrine/src/internal/engine/engine.cc:219-291 | The calls of Engine::process on the workers there are by then: the PostInfo to every worker, then all chunks; with distinct ids each chunk i of a request exactly once, at worker i % workers, and no other; none without workers. |
| `Sending.ProgramExactly` | peregrine/src/internal/engine/engine.cc:219-326 | Over any sequence of posts, each frame that is due is handed out exactly once, to the worker it is due, and no other frame. |
| `Sending.ChunksAreJobs` | peregrine/src/internal/engine/engine.cc:304-325 | The chunks handed out for a request, with index and worker, are the ones Layout.ProcessWrite cuts it into. |
| `Sending.HandedExactly` | peregrine/src/internal/engine/worker.cc:59-79 | For every interleaving, once the engine has processed the posts, each worker has been handed each frame due to it once, and no other. |
| `Sending.CarriedExactly` | peregrine/src/internal/engine/worker.cc:85-143 | A stream worker that has emptied its queues without a failed write has put each of them on its stream exactly once. |
| `Sending.StreamOrder` | peregrine/src/internal/engine/worker.cc:85-143 | For every interleaving of the engine thread with the send threads, and workers added between posts, a stream carries the PostInfo of a local post before any of its chunks, and so does every prefix the peer has read. |
| `Sending.FirstInFirstOut` | peregrine/src/internal/engine/worker.cc:92-118 | On a stream, chunks and infos each leave in the order they came, none lost until a write fails and none repeated. |
| `Codec.DataRoundTrip` | peregrine/src/internal/chunk/header_flatbuf.cc:202-218 | Every valid data or ACK header is 64 bytes long and parses back to itself. |
| `Codec.PostInfoRoundTrip` | peregrine/src/internal/chunk/header_flatbuf.cc:185-200 | Every valid PostInfo header, IPv4 or IPv6, is 64 bytes long and parses back to itself. |
| `Codec.DeserializeData` | peregrine/src/internal/chunk/header_flatbuf.cc:86-108 | Only valid data headers come out. |
| `Codec.AcceptsData` | peregrine/src/internal/chunk/header_flatbuf.cc:86-108 | Accepted as data headers are exactly the 64-byte strings that start with the bytes 0x50 0x47 of the magic number, version 1 and opcode 2. |
| `Codec.DeserializePostInfo` | peregrine/src/internal/chunk/header_flatbuf.cc:62-84 | Only valid PostInfo headers come out. |
| `Codec.AcceptsPostInfo` | peregrine/src/internal/chunk/header_flatbuf.cc:62-84 | Accepted as PostInfo headers are exactly those that start with the magic number, version 1 and opcode 1, with a length that is not 0 and a multiple of 128. |
| `Codec.DataReadsAll` | peregrine/src/internal/chunk/header_flatbuf.cc:86-108 | Writing back what was read from an accepted data header gives every byte of it but the padding. |
| `Codec.PostInfoReadsAll` | peregrine/src/internal/chunk/header_flatbuf.cc:62-84 | Likewise for a PostInfo header: base, address, port, family and metadata. |
| `Codec.DataBaseFields` | peregrine/src/internal/chunk/header.fbs:15-25 | Magic number, version, opcode, handle and length are at bytes 0, 2, 3, 4 and 8 of a header. |
| `Codec.DataBodyRead` | peregrine/src/internal/chunk/header.fbs:47-60 | Request id, index, byte offset and address are at bytes 12, 16, 24 and 32. |
| `Codec.DataTimesRead` | peregrine/src/internal/chunk/chunk_trace_wire.fbs:5-11 | The times of the trace are at bytes 40, 48 and 52. |
| `Codec.OneFieldsAt` | peregrine/src/internal/chunk/header.fbs:81-100 | The fields of a descriptor are at bytes 0, 4, 8, 16, 24, 32, 40 and 72. |
| `Codec.Exclusive` | peregrine/src/internal/transfer/transfer.cc:100-111 | No bytes parse both as a data header and as a PostInfo header, so the order of the attempts is irrelevant. |
| `Codec.DispatchRoundTrip` | peregrine/src/internal/transfer/transfer.cc:100-111 | What is sent is dispatched to its own kind. |
| `Codec.OneRoundTrip` | peregrine/src/internal/chunk/header_flatbuf.cc:110-147 | Every valid request descriptor is 128 bytes long and parses back to itself. |
| `Codec.DeserializeOne` | peregrine/src/internal/chunk/header_flatbuf.cc:124-147 | Only valid descriptors come out. |
| `Codec.SerializeList` | peregrine/src/internal/chunk/header_flatbuf.cc:149-166 | The loop appends the descriptors in order. |
| `Codec.DeserializeList` | peregrine/src/internal/chunk/header_flatbuf.cc:168-183 | Finds the list a payload stands for, or fails only if it stands for none. |
| `Codec.ParsesOnce` | peregrine/src/internal/chunk/header_flatbuf.cc:168-183 | A payload stands for at most one list, of valid descriptors. |
| `Codec.ListRoundTrip` | peregrine/src/internal/chunk/header_flatbuf.cc:149-183 | Every non-empty list of valid descriptors survives the wire. |
| `Transfer.StreamChannel.Drain` | peregrine/src/internal/transfer/transfer.cc:377-389 | Succeeds if and only if it has dropped exactly the given number of bytes, and never drops more. |
| `Transfer.StreamChannel.SendAck` | peregrine/src/internal/transfer/transfer.cc:113-124 | Writes the header of the chunk with length 0. |
| `Transfer.StreamChannel.RecvData` | peregrine/src/internal/transfer/transfer.cc:180-249 | Succeeds if and only if exactly the payload was consumed, the tracker knows the chunk and the acknowledgement, if due, was written; the payload is placed for an EMPTY chunk and dropped for a DONE or BUSY one; only a chunk that is in place is acknowledged. |
| `Transfer.AckNamesChunk` | peregrine/src/internal/transfer/transfer.cc:113-124 | What the sender decodes of an acknowledgement is one, and names the chunk: but for the length it is the header of the chunk. |
| `Transfer.StreamChannel.RecvPostInfo` | peregrine/src/internal/transfer/transfer.cc:155-178 | Succeeds if and only if exactly the payload was consumed, is a list of descriptors and was added. |
| `Transfer.StreamChannel.RecvStream` | peregrine/src/internal/transfer/transfer.cc:126-153 | Returns true if and only if it has consumed exactly one frame, 64 bytes of header and as many as it says, and that was received; what is stored and acknowledged follows from header, answers and bytes read. |
| `Transfer.StreamChannel.RecvLoop` | peregrine/src/internal/engine/worker.cc:157-176 | Each header is decoded where the frame before it ends. |
| `Transfer.SentUnpacks` | peregrine/src/internal/transfer/transfer.cc:251-283 | A frame sent as one packet arrives as exactly its header and its payload if it fits the receive buffer of 10 KiB, and is dropped whole if it does not. |
| `Transfer.MessageChannel.RecvMsg` | peregrine/src/internal/transfer/transfer.cc:251-283 | A packet acts as the header and the payload it stands for, or is dropped whole; at most one packet is taken, and a packet says nothing about the next. |
| `Transfer.MessageChannel.RecvData` | peregrine/src/internal/transfer/transfer.cc:311-375 | A payload of another length than the header says is dropped; else an EMPTY chunk is copied and acknowledged, a DONE one acknowledged, a BUSY one ignored. |
| `Transfer.MessageChannel.RecvPostInfo` | peregrine/src/internal/transfer/transfer.cc:285-309 | A list of another length than the header says is dropped; otherwise it succeeds if and only if the list parses and is added. |
| `Receiving.Receive` | peregrine/src/internal/transfer/transfer.cc:126-249 | With the answers of the trackers read from the tables, a call that receives one frame from a stream is a sequence of protocol steps of its thread: exactly the bytes consumed are stored at the looked-up address, a partial read leaves the chunk EMPTY, and an acknowledgement is written by both or by neither. |
| `Receiving.ReceiveMsg` | peregrine/src/internal/transfer/transfer.cc:251-375 | The same for a message channel, where all of the payload is stored or none. |
| `Receiving.DataReceived` | peregrine/src/internal/transfer/transfer.cc:180-249 | For each answer of the trackers and each number of bytes that can be read, the steps of the thread are enabled one after the other and do what the code does. |
| `Receiving.DoesReaches` | peregrine/src/internal/transfer/transfer.cc:87-98 | From a reachable state such a sequence leads to a reachable one, so what holds in every run holds after the call. |
| `Transfer.DecodedIsPrefix` | peregrine/src/internal/engine/worker.cc:157-176 | Whatever prefix of the stream arrives and wherever the loop stops, the decoded headers are the first ones sent. |
| `ScatterGather.IoVecCursor.constructor` | peregrine/src/internal/lib/iovec_cursor.h:31-40 | Starts at the flattened buffers. |
| `ScatterGather.IoVecCursor.Advance` | peregrine/src/internal/lib/iovec_cursor.h:86-115 | Drops exactly the given number of bytes from what remains; true iff nothing remains. |
| `ScatterGather.TotalLength` | peregrine/src/internal/lib/iovec_cursor.h:35-38 | The number of bytes of the flattened buffers. |
| `ScatterGather.SocketTransfer` | peregrine/src/internal/socket/socket_tcp.cc:172-235 | For every schedule of short transfers, interrupts and failures, Send and Recv move a prefix of the flattened bytes, in order, as long as the schedule says, and return its length or -1. |
| `ScatterGather.ResultCounts` | peregrine/src/internal/socket/socket_tcp.cc:186-235 | The result is -1 if and only if the transfer stopped at an error, or Send at zero bytes; otherwise, also where the socket would block or the stream has ended, it is the number of bytes moved until then. |
| `ScatterGather.StopsAtFirst` | peregrine/src/internal/socket/socket_tcp.cc:186-235 | A transfer that stops does so at the first call that is neither interrupted nor moves bytes, nor, in the loops that wait, blocks and becomes ready. |
| `ScatterGather.UtilTransfer` | peregrine/src/internal/socket/tcp_socket_util.cc:98-130 | The inlined loops of Send and Recv move the same kind of prefix, and OK means all bytes. |
| `ScatterGather.Inlined` | peregrine/src/internal/socket/tcp_socket_util.cc:106-114 | Skipping buffers and shortening the next drops exactly the bytes moved. |
| `ScatterGather.RunBounded` | peregrine/src/internal/socket/tcp_socket_util.cc:152-183 | A transfer is complete iff all bytes have moved, and never moves more. |
| `ScatterGather.RunsAgree` | peregrine/src/internal/socket/tcp_socket_util.cc:98-130 | On a socket that does not block, the two families of loops move the same bytes and end the same way. |
| `TraceRendering.DrawnRenderable` | peregrine/src/internal/trace/chrome_trace_exporter.cc:460-770 | For all timelines with send workers in 1..200, any two slices on one pid and tid are disjoint or nested, and every slice lasts at least 1 us. |
| `TraceRendering.PostExtends` | peregrine/src/internal/trace/chrome_trace_exporter.cc:448-456 | Drawing a post moves no end marker back. |
| `TraceRendering.TracksDistinct` | peregrine/src/internal/trace/chrome_trace_exporter.cc:390-403 | With send workers in 1..200 no two tracks share pid and tid. |
| `TraceRendering.TooManyWorkers` | peregrine/src/internal/trace/chrome_trace_exporter.cc:390-403 | For every send worker beyond 200 there is a post whose slices overlap partially. |
| `TraceRendering.Render` | peregrine/src/internal/trace/chrome_trace_exporter.cc:374-378 | Draws the posts one after the other; for timelines with send workers in 1..200 what it returns is renderable. |
| `TraceRendering.PostDrawn` | peregrine/src/internal/trace/chrome_trace_exporter.cc:448-770 | For a post whose recorded stages are positive and increasing, on tracks that are free when they begin, the slices drawn are exactly these, in this order: Post from entry to enqueueing, the wait from there until the engine takes the post up, connection setup with lookup and connects, and per request the fanout until its last chunk is enqueued, and per chunk the wait until it is taken, the write from there to its end, the receive slices and the acknowledgement; then callback or poll between all done and completed. |
| `TraceRendering.RequestDrawn` | peregrine/src/internal/trace/chrome_trace_exporter.cc:538-569 | Likewise for one request: the fanout from its dequeueing to the last enqueueing of its chunks, then six slices per chunk. |
| `TraceRendering.RecvIsTold` | peregrine/src/internal/trace/chrome_trace_exporter.cc:658-701 | For all inputs the second receive slice lasts the acquire time and the third the payload time, or 1 us for 0, the third begins where the second ends, and the first covers both; with room between sending and acknowledgement, on a free track, they lie in the middle to within 1 us. |
| `TraceRendering.SampleIsTimed` | peregrine/src/internal/trace/chrome_trace_exporter.cc:448-456 | Such a post exists, with two chunks on one worker. |
| `TraceRendering.TimelineRenderer.EmitPostEnqueue` | peregrine/src/internal/trace/chrome_trace_exporter.cc:460-480 | One slice of the caller, exactly from entry to enqueueing on a free track and for increasing times, keeping slices disjoint or nested and end markers monotone. |
| `TraceRendering.TimelineRenderer.EmitEngineQueueWait` | peregrine/src/internal/trace/chrome_trace_exporter.cc:482-502 | The wait in the queue, after both the caller and the engine, drawn if there was any; on a free track exactly from the enqueueing to the start of connecting or the first dequeueing, keeping slices disjoint or nested and end markers monotone. |
| `TraceRendering.TimelineRenderer.EmitConnSetup` | peregrine/src/internal/trace/chrome_trace_exporter.cc:504-536 | Connection setup, with host lookup and connects inside it only where they fit; for increasing times exactly at the recorded ones, keeping slices disjoint or nested and end markers monotone. |
| `TraceRendering.TimelineRenderer.EmitRequestFanout` | peregrine/src/internal/trace/chrome_trace_exporter.cc:547-569 | One slice, for increasing times on a free track exactly from the dequeueing of the request to the last enqueueing of a chunk, keeping slices disjoint or nested and end markers monotone. |
| `TraceRendering.TimelineRenderer.EmitChunk` | peregrine/src/internal/trace/chrome_trace_exporter.cc:571-620 | The sending of a chunk, then its acknowledgement; for increasing times on free tracks six slices at the recorded ones, keeping slices disjoint or nested and end markers monotone. |
| `TraceRendering.TimelineRenderer.EmitSend` | peregrine/src/internal/trace/chrome_trace_exporter.cc:573-606 | Queue wait and transmission on the track of the send worker; for increasing times on a free track exactly from enqueueing, or the end of the chunk before, to dequeueing, and from there to the end of the write, keeping slices disjoint or nested and end markers monotone. |
| `TraceRendering.TimelineRenderer.EmitChunkAck` | peregrine/src/internal/trace/chrome_trace_exporter.cc:622-654 | Nothing without an acknowledgement; else the inferred receive slices and one of at least 1 us for the acknowledgement, after the transmission, keeping slices disjoint or nested and end markers monotone. |
| `TraceRendering.TimelineRenderer.EmitRemoteRecv` | peregrine/src/internal/trace/chrome_trace_exporter.cc:658-701 | A receive slice with acquisition and payload inside it, centred in the round trip unless the track was busy, keeping slices disjoint or nested and end markers monotone. |
| `TraceRendering.TimelineRenderer.EmitCompletion` | peregrine/src/internal/trace/chrome_trace_exporter.cc:716-770 | The callback on the acknowledgement track, or wait and poll on the track of the caller, or nothing; for increasing times on free tracks exactly from all done to completed, and 1 us for the poll, keeping slices disjoint or nested and end markers monotone. |
| `TraceRendering.TimelineRenderer.EmitRequest` | peregrine/src/internal/trace/chrome_trace_exporter.cc:538-545 | The fanout of a request, then each of its chunks in order, at the recorded times under the conditions of RequestDrawn, keeping slices disjoint or nested and end markers monotone. |
| `TraceRendering.TimelineRenderer.EmitPost` | peregrine/src/internal/trace/chrome_trace_exporter.cc:448-456 | The stages of a post in order, at the recorded times under the conditions of PostDrawn, keeping slices disjoint or nested and end markers monotone. |
| `TcpManaging.ExactlyOneOwner` | peregrine/src/internal/socket/tcp_manager.cc:190-373 | In every run each open socket has exactly one owner among listeners, connectors, incoming, outgoing, callers, a connecting thread, the event loop and the thread about to close it; a closed one has none. |
| `TcpManaging.EventsFindTheirSocket` | peregrine/src/internal/socket/tcp_manager.cc:344-351 | Every polled event finds its descriptor in listeners or connectors. |
| `TcpManaging.WatchedAreOwned` | peregrine/src/internal/socket/tcp_manager.cc:233-245 | The poller watches only descriptors of open sockets. |
| `TcpManaging.NothingAfterStop` | peregrine/src/internal/socket/tcp_manager.cc:331-373 | Once Stop has returned and Start has exited no container holds a socket, then or in any later state. |
| `TcpManaging.StepKeeps` | peregrine/src/internal/socket/tcp_manager.cc:190-373 | Every step of callers, event loop and Stop keeps the invariant. |
| `TcpManaging.OnlyConnected` | peregrine/src/internal/socket/tcp_manager.cc:210-316 | In every run incoming, outgoing and the callers hold only sockets whose connect succeeded or which were accepted. |
| `TcpManaging.NoneLost` | peregrine/src/internal/socket/tcp_manager.cc:210-316 | Until Stop is called every such socket is there for the callers, unless a caller has closed it. |
| `TcpManaging.OutcomeDecides` | peregrine/src/internal/socket/tcp_manager.cc:298-319 | After a pending connect is handled its socket is in outgoing if and only if it connected and outgoing is not sealed, and is about to be closed otherwise. |
| `TcpManaging.ConnectDecides` | peregrine/src/internal/socket/tcp_manager.cc:190-250 | After connect() returns, the socket is in outgoing if and only if it succeeded and outgoing is not sealed, a connector if and only if it is pending and was added, and about to be closed otherwise. |
| `TcpManaging.AddPending` | peregrine/src/internal/socket/tcp_manager_base.cc:87-101 | Adding and registering a connector under one lock keeps every watched descriptor owned. |
| `TcpManaging.DispatchConnector` | peregrine/src/internal/socket/tcp_manager.cc:298-303 | A connector taken out of the map is the only socket that may be watched without being in it. |
| `TcpManaging.DoomKeeps` | peregrine/src/internal/socket/tcp_manager_base.cc:133-141 | Sockets swapped out of a container or refused by it belong to the thread that will close them, and are not watched while the loop polls. |
| `TcpManaging.CloseOneKeeps` | peregrine/src/internal/socket/tcp_manager_base.cc:133-141 | Closing one of them, after the lock has been dropped, frees a descriptor nobody else holds. |
| `TcpContainers.Connectors.Seal` | peregrine/src/internal/socket/tcp_manager_base.cc:82-85 | Sets the seal and nothing else. |
| `TcpContainers.Connectors.Add` | peregrine/src/internal/socket/tcp_manager_base.cc:87-101 | Adds iff not sealed, not there and registered; what is not added is not watched. |
| `TcpContainers.Connectors.Remove` | peregrine/src/internal/socket/tcp_manager_base.cc:103-114 | Takes the connector of the descriptor out, if there is one. |
| `TcpContainers.Connectors.RemoveExpired` | peregrine/src/internal/socket/tcp_manager_base.cc:116-131 | The loop takes out exactly the connectors whose time has come. |
| `TcpContainers.Connectors.Close` | peregrine/src/internal/socket/tcp_manager_base.cc:133-141 | Takes out everything from a sealed container. |
| `TcpContainers.Produced.Seal` | peregrine/src/internal/socket/tcp_manager_base.cc:150-153 | Sets the seal and nothing else. |
| `TcpContainers.Produced.Add` | peregrine/src/internal/socket/tcp_manager_base.cc:155-168 | Appends iff not sealed. |
| `TcpContainers.Produced.MoveAll` | peregrine/src/internal/socket/tcp_manager_base.cc:170-173 | Hands over all sockets and keeps none. |
| `TcpContainers.Produced.Close` | peregrine/src/internal/socket/tcp_manager_base.cc:175-183 | Takes out everything from a sealed container. |
| `TcpContainers.ExpirySplits` | peregrine/src/internal/socket/tcp_manager.cc:321-329 | Expiry loses no socket and leaves none in both parts. |
| `HostText.HostRoundTrip` | peregrine/src/internal/base/hostinfo.cc:50-80 | A valid host survives printing and parsing exactly when no interface name starts with a space or contains a slash or a semicolon. |
| `HostText.HostSurvives` | peregrine/src/internal/base/hostinfo.cc:50-80 | The direction in which it does. |
| `HostText.ParsedHostPlain` | peregrine/src/internal/base/hostinfo.cc:50-72 | Names that come out of the parser start with a non-space and contain no slash and no semicolon. |
| `HostText.CreateHost` | peregrine/src/internal/base/hostinfo.cc:50-72 | The loop parses the first part as the control endpoint and the others as interfaces, or gives the invalid host. |
| `HostText.PrintHost` | peregrine/src/internal/base/hostinfo.cc:74-80 | The loop appends each interface after "; ". |
| `HostText.IsDataPlaneValid` | peregrine/src/internal/base/hostinfo.cc:24-48 | Comparing set sizes decides that no endpoint and no name is repeated. |
| `HostText.CreateNic` | peregrine/src/internal/base/nicinfo.cc:52-70 | Splits at the first two slashes and parses every endpoint, or gives the invalid interface. |
| `HostText.NicRoundTrip` | peregrine/src/internal/base/nicinfo.cc:44-70 | A valid interface with a plain name parses back to itself. |
| `HostText.EndpointRoundTrip` | peregrine/src/internal/base/endpoint.cc:30-67 | Every endpoint parses back to itself, through the last colon. |
| `HostText.ParsesExactly` | peregrine/src/internal/base/endpoint.cc:30-67 | A text of an address, in brackets for IPv6, a colon and a port from 0 to 65535 gives that endpoint; every other text gives the empty one. |
| `HostText.AtoiExactly` | peregrine/src/internal/base/endpoint.cc:43-47 | A port is accepted exactly if it is digits with an optional sign and spaces around, with that value. |
| `RdmaRegions.RdmaMemory.FindRegion` | peregrine/src/internal/rdma/rdma_memory.cc:135-160 | Returns the region with the greatest base not above the address iff the range ends in it, in 64-bit arithmetic. |
| `RdmaRegions.FoundContains` | peregrine/src/internal/rdma/rdma_memory.cc:141-158 | What is found contains the range iff the range does not wrap around. |
| `RdmaRegions.LookupComplete` | peregrine/src/internal/rdma/rdma_memory.cc:144-158 | The lookup agrees with an exhaustive search for all ranges iff the regions end in the order they start. |
| `RdmaRegions.DisjointInOrder` | peregrine/src/internal/rdma/rdma_memory.cc:74-82 | Pairwise disjoint regions do. |
| `RdmaRegions.FindsWrapped` | peregrine/src/internal/rdma/rdma_memory.cc:141-158 | After registering (100, 10) a range that wraps around is found in the region, which does not contain it. |
| `RdmaRegions.MissesEnclosed` | peregrine/src/internal/rdma/rdma_memory.cc:144-158 | After registering (100, 10) and then (50, 200) the range [100, 150) is inside the second region and is not found. |
| `RdmaRegions.LosesReplaced` | peregrine/src/internal/rdma/rdma_memory.cc:110-113 | After registering (100, 10) and then (100, 20) the handle of the first is held and in no region. |
| `RdmaRegions.LosesNamesake` | peregrine/src/internal/rdma/rdma_memory.cc:107-107 | With two devices of one name the handle of the first is held and in no region. |
| `RdmaRegions.RdmaMemory.RegisterOn` | peregrine/src/internal/rdma/rdma_memory.cc:84-108 | A new handle per name, or on a failure none; a handle is lost if and only if two of the devices tried share a name. |
| `RdmaRegions.RdmaMemory.RegisterMemory` | peregrine/src/internal/rdma/rdma_memory.cc:58-115 | Succeeds if and only if the arguments are valid, the range is not found and every device does; no handle is lost if and only if the names differ and no region with handles had the same base. |
| `RdmaRegions.RdmaMemory.UnregisterMemory` | peregrine/src/internal/rdma/rdma_memory.cc:117-129 | Removes the region and its handles. |
| `ConnPooling.ConnPool.Borrow` | peregrine/src/api/v1/conn_pool.cc:45-104 | Hands out the last connection pooled under the key that has no unread data, one last returned for this very peer and local address if no local address has an arrow in it, or the new one if there is none; a prefix of the list is left, other keys are untouched, those with unread data are closed, and every connection stays in exactly one state. |
| `ConnPooling.ConnPool.Return` | peregrine/src/api/v1/conn_pool.cc:106-125 | A borrowed connection becomes idle under its key, or closed. |
| `ConnPooling.ConnPool.CloseIdle` | peregrine/src/api/v1/conn_pool.cc:127-147 | Closes exactly the idle connections under keys with the suffix, and returns how many: those returned for this peer, if no peer text has an arrow in it. |
| `ConnPooling.ConnPool.IdleCount` | peregrine/src/api/v1/conn_pool.cc:149-157 | Counts the same connections. |
| `ConnPooling.ConnPool.Close` | peregrine/src/api/v1/conn_pool.cc:159-168 | Closes all idle connections and no others. |
| `ConnPooling.IdleIsOfPeer` | peregrine/src/api/v1/conn_pool.cc:127-147 | Among the keys of the pool, all formed by Return, the suffix selects the connections of the peer and no others, for peers without "->". |
| `ConnPooling.SuffixSelectsPeer` | peregrine/src/api/v1/conn_pool.h:63-70 | For peers without "->" the suffix matches exactly the keys of the peer. |
| `ConnPooling.KeysDistinct` | peregrine/src/api/v1/conn_pool.h:63-65 | For local addresses without "->" two keys are equal if and only if peer and local address are. |
| `RateLimiting.BlockingRateLimiter.Reserve` | peregrine/src/internal/lib/rate_limiter.cc:14-26 | The slot follows both the clock and the slots before it; the wait is at least its cost, and exactly that if and only if nothing is reserved beyond the clock. |
| `RateLimiting.DeadlineIsBusyPeriod` | peregrine/src/internal/lib/rate_limiter.cc:22-25 | The deadline is exactly the clock reading of some call plus all costs from that call on, and for no call it is less: no gap while there is a backlog, and nothing charged twice. |
| `RateLimiting.SlotsDisjoint` | peregrine/src/internal/lib/rate_limiter.cc:22-25 | For any clock readings, slots never overlap. |
| `RateLimiting.CostIsPrice` | peregrine/src/internal/lib/rate_limiter.cc:18-20 | What Reserve charges, times the rate, is the number of bytes. |
| `RateLimiting.RateHolds` | peregrine/src/internal/lib/rate_limiter.cc:14-33 | By any time, the bytes released are at most the rate times the span since the first call. |

## Left out

- Progress: a post without workers, an unresolved address or a read whose channel peer was set stays in progress.
- Engine and Transfer inside the protocol: threads interleave, so they are steps on values and not a class; of the reference Find returns only whether it dangles is captured.
- One-sided RDMA channels, whose completions come from the hardware, and RDMA queue pairs.
- Addresses are unbounded in the protocol: base plus offset does not wrap at 64 bits.
- Theorems.FindMissesExactly: does not model what a process does after an abort or through a dangling reference; the thread takes no further step.
- Theorems.AckAbortsExactly: does not model two hosts that draw the same request id as well; then a late acknowledgement would set a bit of the other post.
- Codec.SerializeList: does not model the CHECK that 128 bytes per request fit in 32 bits.
- Transfer.StreamChannel.RecvData: does not model the trackers themselves but any answer they may give.
- Receiving.Receive: does not let another thread in between the lookup and the acknowledgement; the protocol does, step by step.
- RequestTracking.Describe: does not model what the resolve callback is asked with but any answer it may give, by request id.
- TcpManaging.OutcomeDecides: does not model how error and event flags say that a connect has succeeded.
- TraceRendering.Render: does not model flow arrows, instants, names and JSON text; times do not overflow 64 bits.
- TcpManaging.StepKeeps: does not use the classes of the containers; they are values, since three threads interleave. Which connectors have expired and which events arrive is arbitrary.
- HostText.HostRoundTrip: does not model inet_pton and inet_ntop; they are a parameter with a round trip and a character set, which HostText.FaithfulNumbers shows can be had.
- ChunkTracking.Bitset.Get: does not model the shift and the mask but the quotient and the remainder they stand for.
- RateLimiting.RateHolds: does not model the rounding of doubles; a cost is the exact quotient.
- ScatterGather.SocketTransfer: does not model the bytes, only the addresses they are read from or stored to; a schedule that ends leaves the call waiting.
- Assembly of trace events into timelines, metrics, trace stamps on headers, samplers and display.
- gRPC control plane, credentials, Python bindings, benchmarks, flags, NIC discovery and PCI distance.
- FindOrCreate of the request tracker, which the transfer path does not use.
