# CMDTran: a verified model of the relay

CMDTran relays camera pictures. Clients connect over TCP and log in as a phone (a camera) or a PC (a watcher). The
server reads their bytes in arbitrary chunks, cuts them into frames, queues the frames per connection to worker
threads, and passes every picture on to the PCs that watch the sender's camera. This project models that server and
proves what it promises.

`dafny verify dfyconfig.toml` checks everything.

## How the model is built

* `RingProtocol.dfy` is the lock-free ring as a state machine. Each shared load, slot access, CAS and counter update
  is one atomic step; any number of threads, any capacity of at least two, any schedule. Indices are unbounded there.
* `RingQueue.dfy` is the same ring used by one thread at a time, as a class with its real wrapping 32-bit counters.
  The capacity 20971520 does not divide 2^32, so the slot sequence breaks at every wrap; the exact bound up to which
  the ring is still a FIFO queue is a theorem.
* `FrameParser.dfy` defines the frame format and the parser as a function on byte sequences, with its greedy
  characterisation, chunking invariance and round trips. `FrameRestruct.dfy` is the imperative parser over the carry
  array and the received array, proved against that function.
* `MemPool.dfy`, `MemChain.dfy`, `MemBlockList.dfy` are the block pool, the output chain and the intrusive block list
  as classes.
* `Outbound.dfy` specifies what kernel answers do to a chain; `EpollServer.dfy` is the sending half as classes over
  the real chain and the real pool, proved against it.
* `Sessions.dfy` specifies client settings, flow control and command decoding; `RecvDataProc.dfy` is the receiving
  half as classes, proved against it. `WorkerPool.dfy` holds the task queues and the hashing of ids to workers.
* `RingHandout.dfy` runs the pool over the concurrent ring: threads that make, give back and take blocks at the same
  time. `RingGrowth.dfy` adds the growth of the pool: `GetBlock` with its tests and its increment as separate steps.
* `Relay.dfy` is the whole server as a state machine whose steps are those of its threads: accept, admit, read a chunk,
  fetch a block, save a frame, count up; take a task, execute its command, store the camera of a login, read the type of
  the next client, read its camera, get a block, queue it, end the pass, release, count down; send, wake up; quit, take a
  line out of the table, release it. A step is a section under one mutex or one access to a pool, and each `send` is a
  step of its own. The picture loop takes no lock, so each of its reads is a step, and so are the two stores of a login
  that it can fall between. All threads interleave freely. A few pairs of sections are one step; "Left out" names them.
* `RelayInbound.dfy` (who works on what), `RelayConnection.dfy` (the receiving half of a connection), `RelayPool.dfy`
  (the receive pool), `RelayLine.dfy` (the sending half and the send pool), `RelayPasses.dfy` and `RelayRouting.dfy`
  (who gets which picture) prove what each step keeps. `RelayTheorems.dfy` and `RelayDraining.dfy` state the results
  over all runs; `RelayLogins.dfy` says exactly when a look of the picture loop is of one moment, and `RelayTorn.dfy` is
  a run in which it is not. `RelayTasks.dfy` ties the imperative loops to runs of the machine.

The histories record what happened: for each connection the bytes received, the frames found, saved, executed and
completed, the buffers accepted, the bytes written and the release codes; for each sender its picture passes, with the
clients that each of them looked at, what was read of them and what became of the picture. The steps read only whether
a connection was seen before and which pass a worker is in.

## Where the code decides

* The login acknowledgement has code 0x90; the frame description (`ComandTran/FrameStruct:9`) says 0x80. The model
  sends 0x90, as `ComandTran/src/RecvDataProc.cpp:254` does.
* A refused second `CreatPool` overwrites the sizes before it is refused; so does the model.
* `Push` can answer false on a ring that is not full, and `Pop` on one that is not empty: both are shown with a
  run, at every capacity, and the exact condition under which the answer is true is proved.
* A ring of wrapping counters is safe for at most 2^24 - 2 elements, far below its nominal capacity. The pools of the
  relay stay below that as long as no increment of `GrowCount` is lost.
* The limit of 20 extensions (`ComandTran/src/MemPool.cpp:97-103`) is tested and counted without a lock. It holds for
  one caller at a time; with T callers, and no increment lost, the exact limit is 19 + T, and a run that reaches it is
  given for every T.
* `NewClient` stores type and camera under a lock that the picture loop does not take. A client in the midst of a login
  can be served by its new type and its old camera. Pictures therefore do not only go to clients that watch the
  sender's camera; who else can get one, and when, is proved, and such a run is given.
* A frame shorter than a command's fields is still executed; the fields are then read from what the block held before.
  The model gives a block arbitrary leftover bytes behind the frame and reads those.

## Model

| member | source | states |
|---|---|---|
| RingProtocol.NothingLost | ComandTran/inc/LockFreeQueue.h:57-134 | for any number of threads, any capacity of at least 2 and any schedule: the elements popped, in the order of their read CAS, followed by the elements still stored, are exactly the elements committed, in the order of their commit CAS |
| RingProtocol.RunRefines | ComandTran/inc/LockFreeQueue.h:57-134 | every concurrent run is a run of an atomic FIFO queue that performs one `Put` at each successful commit CAS and one `Take` at each successful read CAS and nothing at any other step |
| RingProtocol.StepRefines | ComandTran/inc/LockFreeQueue.h:81-124 | one step of one thread stutters, appends at the tail or takes the head of the stored elements |
| RingProtocol.RunKeepsInv | ComandTran/inc/LockFreeQueue.h:57-134 | in every state of every run: read <= maxRead <= write <= read + N - 1, each reserved ticket belongs to exactly one thread, no live slot is overwritten, and what each thread remembers of the indices is still usable |
| RingProtocol.StepKeepsInv | ComandTran/inc/LockFreeQueue.h:57-134 | every atomic step keeps that invariant |
| RingProtocol.StepKeepsWindow | ComandTran/inc/LockFreeQueue.h:62-88 | the index window is kept; this needs the write index to be loaded before the read index |
| RingProtocol.StepKeepsOwnership | ComandTran/inc/LockFreeQueue.h:72-88 | reserving, storing and committing keep ticket ownership unique |
| RingProtocol.LiveSlotStays | ComandTran/inc/LockFreeQueue.h:75 | a store never hits a slot whose element is committed and not yet popped |
| RingProtocol.WrittenSlotStays | ComandTran/inc/LockFreeQueue.h:75-81 | nor a slot that another producer has written and not yet committed |
| RingProtocol.StepKeepsStale | ComandTran/inc/LockFreeQueue.h:64-72 | stale locals stay harmless while other threads run: a CAS can only succeed on an index for which the full or empty test still means what it said |
| RingProtocol.StepKeepsCounted | ComandTran/inc/LockFreeQueue.h:89-122 | the size counter is, modulo 2^32, the committed elements minus pushes between commit and counter update plus pops between CAS and counter update |
| RingProtocol.SizeWhenQuiet | ComandTran/inc/LockFreeQueue.h:137-140 | `Size` is exact whenever no thread is between its CAS and its counter update |
| RingProtocol.CommitProceeds | ComandTran/inc/LockFreeQueue.h:81-88 | the commit loop cannot deadlock: one thread owns the oldest uncommitted ticket, and its own next one or two steps commit it |
| RingProtocol.PushRefusal | ComandTran/inc/LockFreeQueue.h:66-70 | when `Push` answers false the ring is full at its second load if and only if the write index still names the slot loaded first |
| RingProtocol.PopRefusal | ComandTran/inc/LockFreeQueue.h:106-112 | when `Pop` answers false nothing is committed at its second load if and only if the read index still names the slot loaded first |
| RingProtocol.FailedCasMeansProgress | ComandTran/inc/LockFreeQueue.h:72-130 | a failed CAS means that another thread moved the index since it was loaded |
| RingProtocol.SpuriousPushRefusal | ComandTran/inc/LockFreeQueue.h:64-70 | at every capacity there is a run to a state in which `Push` answers false on an empty ring |
| RingProtocol.SpuriousPopRefusal | ComandTran/inc/LockFreeQueue.h:103-112 | at every capacity there is a run to a state in which `Pop` answers false on a ring with an element |
| RingHandout.BlocksAreExclusive | ComandTran/src/MemPool.cpp:43-67 | in every run of any number of threads over the concurrent ring, each of which pushes only blocks that it made, was passed or took: no block is in two hands, in a hand and in the ring, or in the ring twice, and every block made is in a hand, on its way into the ring, or in it |
| RingHandout.StepKeepsInv | ComandTran/src/MemPool.cpp:43-67 | every step keeps each block in exactly one place |
| RingHandout.ReserveMoves | ComandTran/inc/LockFreeQueue.h:72 | a pushed block leaves its thread with the write CAS and no other block moves |
| RingHandout.TakeMoves | ComandTran/inc/LockFreeQueue.h:115-124 | a popped block reaches its thread with the read CAS, although it was read from the slot before, and no other block moves |
| RingHandout.RefusalMoves | ComandTran/inc/LockFreeQueue.h:66-70 | a refused block is still with its thread and nowhere else |
| RingGrowth.ExtensionsAreBounded | ComandTran/src/MemPool.cpp:43-62 | in every run of a pool whose blocks T threads take at the same time, with the size test, the test of `GrowCount`, its increment, every allocation and every step of the ring interleaved: `GrowCount` is the number of extensions, creation included, and at most 19 + T; and no more blocks are ever allocated than the first count and 18 + T steps |
| RingGrowth.BoundIsReached | ComandTran/src/MemPool.cpp:95-114 | that bound is the least one: for any sizes that the ring can hold and any team of threads there is a run to a state with exactly 19 + T extensions and exactly that many blocks; two threads pass the limit of 20 |
| RingGrowth.RelayPoolsStayWithin | ComandTran/src/EpollServer.cpp:192 | the pools of the relay, with four threads each that take blocks, stay within 23 extensions, and within 327680 and 532480 blocks |
| RingGrowth.StepKeepsInv | ComandTran/src/MemPool.cpp:95-114 | every step of any thread keeps: the blocks are those that the extensions made, the extensions are those counted, those counted and those past the test stay within 19 + T, and each block is in one place |
| RingQueue.PushSafeExactly | ComandTran/inc/LockFreeQueue.h:51-75 | with real 32-bit counters a push at `live` elements is accepted and overwrites nothing at every position of the counters if and only if live <= 2^24 - 2 |
| RingQueue.PopSafeExactly | ComandTran/inc/LockFreeQueue.h:103-112 | a ring with `live` elements can look empty at some position of the counters if and only if live is a multiple of the capacity, or 2^24 more than one |
| RingQueue.WindowDistinct | ComandTran/inc/LockFreeQueue.h:51-54 | up to 2^24 consecutive counter values use different slots, also across the wrap of the counters |
| RingQueue.UnsafeBeyond | ComandTran/inc/LockFreeQueue.h:66-75 | with 2^24 elements or more there is a counter position at which a push lands on a live slot |
| RingQueue.CountersAgree | ComandTran/inc/LockFreeQueue.h:64-122 | the wrapping difference of the counters tracks every push and pop, across any number of wraps |
| RingQueue.WindowPush | ComandTran/inc/LockFreeQueue.h:75 | a safe store appends to the window of live elements |
| RingQueue.WindowPop | ComandTran/inc/LockFreeQueue.h:115-120 | advancing the read counter, wrap included, drops the oldest element |
| RingQueue.Ring.constructor | ComandTran/inc/LockFreeQueue.h:38-43 | an empty queue |
| RingQueue.Ring.Push | ComandTran/inc/LockFreeQueue.h:57-91 | answers false exactly when the index test says full; with at most 2^24 - 2 elements it always succeeds and appends |
| RingQueue.Ring.Pop | ComandTran/inc/LockFreeQueue.h:94-134 | returns the oldest element and removes it; with fewer than 2^24 elements it answers false exactly on the empty queue |
| RingQueue.Ring.Size | ComandTran/inc/LockFreeQueue.h:137-140 | the number of stored elements |
| FrameParser.ChunkingInvariance | ComandTran/src/FrameRestruct.cpp:18-73 | however a stream is cut into calls, the frames of all calls and the final carry are those of one call on the whole stream |
| FrameParser.ParseAppend | ComandTran/src/FrameRestruct.cpp:18-73 | parsing a + b finds the frames of a, then the frames of the rest of a followed by b |
| FrameParser.RestIsPending | ComandTran/src/FrameRestruct.cpp:25-54 | the carry is empty or an undecided frame start of at most 1123 bytes, and parses to itself |
| FrameParser.GreedyIsParse | ComandTran/src/FrameRestruct.cpp:25-70 | a set of frame starts that is leftmost and non-overlapping is what the parser emits, in order |
| FrameParser.GreedyExists | ComandTran/src/FrameRestruct.cpp:25-70 | every stream has such a set of starts |
| FrameParser.GreedyUnique | ComandTran/src/FrameRestruct.cpp:25-70 | and only one |
| FrameParser.EveryWindowAccountedFor | ComandTran/src/FrameRestruct.cpp:25-70 | every well-formed window is emitted, overlaps an emitted frame that starts earlier, or starts at or after the pending head |
| FrameParser.PrintIsFrame | ComandTran/src/RecvDataProc.cpp:315-322 | a printed frame of admissible length is well formed, whatever its payload |
| FrameParser.RoundTrip | ComandTran/src/FrameRestruct.cpp:18-73 | frames with arbitrary payloads, separated by noise without a head byte, are read back exactly and in order with an empty carry |
| FrameParser.ChunkedRoundTrip | ComandTran/src/FrameRestruct.cpp:18-73 | the same for any way of cutting the bytes into calls |
| FrameParser.CutStream | ComandTran/src/FrameRestruct.cpp:18-73 | a stream of frames that breaks off anywhere parses to exactly the frames that are complete |
| FrameRestruct.Restructurer.RestructFrame | ComandTran/src/FrameRestruct.cpp:18-73 | one call over the carry and the received buffer: the new carry is that of the parser, and the frames it finds in the concatenation are copied, in order, each into a block of its own from the pool, up to the one at which the pool is exhausted; exactly those blocks leave the pool; all indices are in range and the loop ends |
| FrameRestruct.Restructurer.GetHeadIndex | ComandTran/src/FrameRestruct.cpp:115-139 | the first head byte at or after the index in the two buffers taken as one, or -1 if there is none |
| FrameRestruct.Restructurer.GetFrameLen | ComandTran/src/FrameRestruct.cpp:160-181 | the big-endian declared length wherever its two bytes fall, or -1 outside 5..1124 |
| FrameRestruct.Restructurer.CheckSum | ComandTran/src/FrameRestruct.cpp:182-200 | whether the last byte of the frame is the tail byte, in whichever buffer it lies |
| FrameRestruct.Restructurer.CopyFrame | ComandTran/src/FrameRestruct.cpp:210-222 | the block starts with exactly the bytes of the frame, also when the frame spans both buffers |
| FrameRestruct.Restructurer.SaveFrame | ComandTran/src/FrameRestruct.cpp:201-226 | exactly when the pool has a block the frame is copied into it and joins the tasks at their end; no block serves two tasks |
| FrameRestruct.Restructurer.CopyRestToExitBuff | ComandTran/src/FrameRestruct.cpp:141-158 | the carry becomes everything from the index on, also when it is shifted within its own buffer |
| FrameRestruct.Restructurer.GetBuffer | ComandTran/src/FrameRestruct.cpp:75-87 | a block that nobody holds and that is neither of the two buffers, or null exactly when the pool has none |
| FrameRestruct.ShiftDown | ComandTran/src/FrameRestruct.cpp:145-149 | the byte-by-byte shift within one buffer keeps the bytes it moves |
| FrameRestruct.Restructurer.Judge | ComandTran/src/FrameRestruct.cpp:32-64 | one turn of the loop decides as the parser does: nothing left, keep, skip one byte, or frame |
| MemPool.Pool.constructor | ComandTran/src/MemPool.cpp:8-12 | a pool without blocks |
| MemPool.Pool.CreatPool | ComandTran/src/MemPool.cpp:19-42 | accepts exactly the first call with positive sizes and then owns that many fresh free blocks if the ring can keep so many apart; a refused call still overwrites the sizes and changes nothing else |
| MemPool.Pool.GetBlock | ComandTran/src/MemPool.cpp:43-62 | never hands out a block that is held; null exactly when none is free and the pool may not grow, or grows by nothing; oldest free block first |
| MemPool.Pool.Refill | ComandTran/src/MemPool.cpp:45-55 | an empty pool grows by the step if fewer than 20 extensions were made |
| MemPool.Pool.FreeBlock | ComandTran/src/MemPool.cpp:64-67 | a held block becomes the last free one |
| MemPool.Pool.ExtendPool | ComandTran/src/MemPool.cpp:95-114 | refused after 20 extensions; otherwise adds that many fresh blocks behind the free ones, as long as the ring can keep so many apart |
| MemPool.TotalIsExact | ComandTran/src/MemPool.cpp:38-53 | the block counter is right if and only if the pool never grew or the step is not negative |
| MemPool.OwnedIsBounded | ComandTran/src/MemPool.cpp:95-103 | free and held blocks together never exceed the planned maximum, and the counter equals their number if and only if the pool never grew or the step is not negative |
| MemPool.MostIs | ComandTran/src/MemPool.cpp:95-103 | the planned maximum is the first count and 19 steps |
| MemPool.RelayPoolsFit | ComandTran/src/EpollServer.cpp:192 | with one caller at a time the two pools of the relay stay within 296960 and 501760 blocks, inside what the ring can hold at every counter position; several callers can exceed it, see `RingGrowth` |
| MemChain.Chain.Push | ComandTran/src/MemChain.cpp:22-47 | refuses only a missing buffer; otherwise appends one new node with nothing of it sent |
| MemChain.Chain.GetHead | ComandTran/src/MemChain.cpp:65-70 | the first node, or null |
| MemChain.Chain.GetIndex | ComandTran/src/MemChain.cpp:48-64 | the node at a position, null for negative or too large ones |
| MemChain.Chain.DeleteHead | ComandTran/src/MemChain.cpp:105-124 | removes the first node, repairing both ends when it was the only one; false on an empty chain |
| MemChain.Chain.GetSize | ComandTran/src/MemChain.cpp:131-134 | the number of linked nodes |
| MemBlockList.BlockList.PushHead | ComandTran/src/MemBlockListManager.cpp:19-39 | the node becomes the first; null is refused |
| MemBlockList.BlockList.PushTrail | ComandTran/src/MemBlockListManager.cpp:40-61 | the node becomes the last; null is refused |
| MemBlockList.BlockList.GetBlockHead | ComandTran/src/MemBlockListManager.cpp:62-80 | takes the first node, clearing both ends when it was the only one |
| MemBlockList.BlockList.DeletBlockWithAddr | ComandTran/src/MemBlockListManager.cpp:82-118 | removes exactly the first node with the address, wherever it is, with the chain acyclic and the tail its last node; otherwise null and nothing changes |
| MemBlockList.BlockList.IsEmpty | ComandTran/src/MemBlockListManager.cpp:119-126 | whether there is no node |
| MemBlockList.Find | ComandTran/src/MemBlockListManager.cpp:93-111 | the position of the first node with the address |
| Outbound.SendConserves | ComandTran/src/EpollServer.cpp:150-178 | one `send`, whatever the kernel answers: bytes written and bytes left are the bytes that were left before, and only the head can be partly written |
| Outbound.DrainConserves | ComandTran/src/EpollServer.cpp:145-179 | over a whole send task bytes are conserved, every buffer is finished or still queued in order, and a stall leaves a partly written head |
| Outbound.WillingKernelDrains | ComandTran/src/EpollServer.cpp:145-179 | a kernel that takes all it is offered empties the chain |
| EpollServer.SocketInformation.SendAll | ComandTran/src/EpollServer.cpp:145-179 | the loop writes exactly the bytes and leaves exactly the chain of the specification, calls back with code 0 for each finished buffer in order, and returns exactly their blocks to the pool |
| EpollServer.SocketInformation.SendHead | ComandTran/src/EpollServer.cpp:147-178 | one turn of the loop is one `send` of the specification |
| EpollServer.SocketInformation.Finish | ComandTran/src/EpollServer.cpp:173-177 | the head leaves the chain, its sender is told, its block goes back |
| EpollServer.SocketInformation.Advance | ComandTran/src/EpollServer.cpp:164-169 | a short write moves the head and marks the socket as waiting |
| EpollServer.SocketInformation.ReleaseAll | ComandTran/src/EpollServer.cpp:342-350 | every queued buffer is reported as failed and its block returned, once |
| EpollServer.Server.constructor | ComandTran/src/EpollServer.cpp:183-193 | a server with a created pool and no connection |
| EpollServer.Server.ProcessTask | ComandTran/src/EpollServer.cpp:131-182 | a send task on an open connection does what the loop specification says and touches no other connection; on a closed one it does nothing. After it the blocks out of the pool are exactly those in the chains, each in one place |
| EpollServer.Server.SendData | ComandTran/src/EpollServer.cpp:287-325 | succeeds exactly for a buffer of 1..1152 bytes to a known socket when a block can be had, and then queues a copy at the end; otherwise nothing changes and no block is lost. A send task is asked for exactly when the socket is not waiting |
| EpollServer.Server.AddSocket | ComandTran/src/EpollServer.cpp:53-58 | a new socket gets an empty line; a known one keeps its own |
| EpollServer.Server.RemoveSocket | ComandTran/src/EpollServer.cpp:326-354 | the line leaves the table, everything queued is reported as failed, every block of it is returned, no other line changes |
| EpollServer.Server.Reclaim | ComandTran/src/EpollServer.cpp:340-353 | a line that is out of the table and still has its blocks is released as a whole |
| EpollServer.Server.ModifyRead | ComandTran/src/EpollServer.cpp:427-464 | the flag takes the wanted value; the answer is false exactly when the flag changed and `epoll_ctl` failed |
| EpollServer.Server.Writable | ComandTran/src/EpollServer.cpp:67-88 | a known socket stops waiting and a send task is asked for; nothing else changes |
| EpollServer.TidyReleased | ComandTran/src/EpollServer.cpp:171-177 | taking nodes off a chain and their blocks back keeps blocks and nodes in one-to-one correspondence |
| EpollServer.TidyAdded | ComandTran/src/EpollServer.cpp:292-311 | so does adding a node for a block just handed out |
| EpollServer.TidyOwns | ComandTran/src/EpollServer.cpp:292-311 | each line owns its blocks: they are out of the pool and distinct |
| Sessions.CountingKeepsThrottled | ComandTran/src/RecvDataProc.cpp:125-166 | counting up or down keeps: reading on means at most 307200 frames, reading off at least 512 |
| Sessions.AckIsFrame | ComandTran/src/RecvDataProc.cpp:254 | the login acknowledgement is a well-formed frame |
| RecvDataProc.DataProc.AddClient | ComandTran/src/RecvDataProc.cpp:71-84 | a new client enters the table as a newcomer; a registered one stays as it is |
| RecvDataProc.DataProc.QuitClient | ComandTran/src/RecvDataProc.cpp:86-103 | the client leaves the table, no other changes |
| RecvDataProc.DataProc.AddRecvData | ComandTran/src/RecvDataProc.cpp:105-122 | the chunk is parsed behind the carry of its own client, frames become tasks as far as the pool has blocks, and the client is charged for exactly those |
| RecvDataProc.DataProc.IncreaseFrameCount | ComandTran/src/RecvDataProc.cpp:125-145 | the count grows; reading is switched off exactly when it was on and the count passes the high mark |
| RecvDataProc.DataProc.DecreaseFrameCount | ComandTran/src/RecvDataProc.cpp:147-166 | the count drops by one; reading is switched on exactly when it was off and the count falls below the low mark |
| RecvDataProc.DataProc.CommandProc | ComandTran/src/RecvDataProc.cpp:201-224 | the table after any frame is the one the command asks for; a login is acknowledged, a bad one closes the client, a picture is offered to exactly its watchers |
| RecvDataProc.DataProc.ProcessTask | ComandTran/src/RecvDataProc.cpp:16-23 | the command of the frame is obeyed and answered, exactly its block goes back to the pool, and its client, unless it has quit, is discharged of one frame |
| RecvDataProc.DataProc.NewClient | ComandTran/src/RecvDataProc.cpp:225-258 | succeeds exactly for a known type and a registered client, and then sets both fields and acknowledges |
| RecvDataProc.DataProc.ResetCameraId | ComandTran/src/RecvDataProc.cpp:296-314 | sets the camera of a registered client and nothing else |
| RecvDataProc.DataProc.PicDataRecv | ComandTran/src/RecvDataProc.cpp:263-295 | offers the frame once to every other client that is a PC set to the sender's camera, to nobody else, in the order of socket ids |
| RecvDataProc.FrameInit | ComandTran/src/RecvDataProc.cpp:315-322 | the array becomes the printed frame around the payload it already held, well formed for lengths 5..1124 |
| WorkerPool.ThreadPool.AddTask | ComandTran/src/ThreadPool.cpp:62-71 | the task joins the end of the queue |
| WorkerPool.ThreadPool.GetTask | ComandTran/src/ThreadPool.cpp:86-122 | the oldest task, or none after a shutdown |
| WorkerPool.MasterWorkPool.InitPool | ComandTran/src/MasterWorkPool.cpp:15-29 | one distinct empty queue with one thread for each worker number |
| WorkerPool.MasterWorkPool.AddTask | ComandTran/src/MasterWorkPool.cpp:31-37 | the task joins the queue of the worker that the id always selects, and no other queue changes |
| WorkerPool.ShardIsRemainder | ComandTran/src/MasterWorkPool.cpp:34 | the home thread used by the state machine is id modulo the number of workers |
| RelayTheorems.EveryRun | ComandTran/src/EpollServer.cpp:99-182 | in every state that any interleaving of receiver, worker and send steps of any number of threads reaches, all invariants below hold |
| RelayTheorems.StepKeepsInv | ComandTran/src/EpollServer.cpp:99-182 | every step of any thread keeps them |
| RelayTheorems.EndToEnd | ComandTran/src/EpollServer.cpp:145-179 | parsing the bytes written to b, in any chunks, returns the buffers accepted for b that went out in full, in order; those that came from a stand at increasing positions among the frames that the parser finds in the bytes a sent, and every other one that has no sender is the login acknowledgement |
| RelayTheorems.PeerReadsWhatWasSent | ComandTran/src/EpollServer.cpp:145-179 | every buffer accepted for a connection is a well-formed frame, the login acknowledgement if it has no sender, and the bytes written are a prefix of them; parsing them in any chunks returns exactly the frames sent in full, which are those released with code 0; every other released one has the failure code, and once the line is gone all were released |
| RelayTheorems.BytesConserved | ComandTran/src/EpollServer.cpp:131-182 | bytes written followed by bytes queued are all bytes ever accepted, for every line that is not released yet |
| RelayTheorems.OrderIsKept | ComandTran/src/RecvDataProc.cpp:168-173 | the frames saved for a connection are those completed, then the one in process, then those queued, all with one worker |
| RelayTheorems.ExecutedInOrder | ComandTran/src/RecvDataProc.cpp:16-23 | the frames executed for a connection are those completed and at most one more, and the first of those saved |
| RelayTheorems.OneAtATime | ComandTran/src/MasterWorkPool.cpp:15-37 | two workers never process frames of one connection at the same time |
| RelayTheorems.FlowControl | ComandTran/src/RecvDataProc.cpp:105-166 | frame count plus frames saved and not yet counted are the frames queued or in process; reading off implies at least 512 of them, reading on at most 307200 counted, and the socket flag agrees |
| RelayDraining.DrainingIsBounded | ComandTran/src/RecvDataProc.cpp:125-166 | along any run of all threads during which a client is not read, no more of its frames are completed than frameCount - 512 and the frames counted up meanwhile |
| RelayDraining.DrainingResumes | ComandTran/src/RecvDataProc.cpp:147-166 | along any run that counts nothing up for a client whose reading is off, reading is on again exactly after frameCount - 512 + 1 completions |
| RelayDraining.StepCounts | ComandTran/src/RecvDataProc.cpp:125-166 | every step of any thread changes the count by the frames it counts, and switches reading off above the high mark and on below the low mark only |
| RelayTheorems.FramesAreParsed | ComandTran/src/RecvDataProc.cpp:105-122 | the frames found on a connection and its carry are what the parser makes of all bytes received on it |
| RelayTheorems.SettingsAreLatest | ComandTran/src/RecvDataProc.cpp:250-251 | the type of a client is what the latest login among its executed frames said; its camera is what the latest login or reset among those stored in full said; these are all its executed frames, except for the last one while that is a login between its two stores |
| RelayTheorems.PassesAreComplete | ComandTran/src/RecvDataProc.cpp:263-295 | every picture pass is of a picture that its sender executed, with the camera that the sender had set before it; a pass that is over looked exactly once, in the order of socket ids, at every client connected from its start to its end; each look read the type, and after it the camera, that the commands of its client had stored by then, each at a time between the start and the end of the pass; it found the client not watching exactly when that is the sender, no PC or set to another camera; a client that vanished between the two readings had quit before the end; every other look ended without a block, without a socket, or accepted, and a client without a socket has none ever after |
| RelayLogins.LooksAreWholeExactly | ComandTran/src/RecvDataProc.cpp:286-294 | in every run, the type and the camera that a look has read were settings of the same commands at some moment if and only if no login of the client straddles the look; without one, the client was set as read at the second reading |
| RelayLogins.TogetherExactly | ComandTran/src/RecvDataProc.cpp:250-251 | for any history of commands and any two readings that the relay can make: the last login behind the type and the last command behind the camera stood together at some moment if and only if no login lies between the readings |
| RelayLogins.LookIsRightExactly | ComandTran/src/RecvDataProc.cpp:286-294 | type and camera as read were both true of the client at one of the two readings if and only if no login straddles the look, or the type still stood at the second reading, or the camera stood already at the first |
| RelayLogins.TornLookIsRightExactly | ComandTran/src/RecvDataProc.cpp:250-251 | a look between the two stores of a login has read the new type and the old camera; both were true together just before the login if and only if it repeats the type, and just after it if and only if it repeats the camera |
| RelayTorn.TornLogin | ComandTran/src/RecvDataProc.cpp:286-294 | there is a run to a state in which a client whose only command is a login as a PC for camera 5 was given a picture of a sender set to camera 0, and after no number of its commands was it a PC set to camera 0 |
| RelayTheorems.PicturesHavePasses | ComandTran/src/RecvDataProc.cpp:210-217 | the pictures that a connected client has had executed have one pass each, in order, and the pass is over when the frame is done |
| RelayTheorems.AcceptedAreGiven | ComandTran/src/EpollServer.cpp:287-325 | the buffers accepted for b from a are exactly the passes of a whose look at b ended accepted, in order, and each is the frame of its pass |
| RelayTheorems.OnlyWatchersAreServed | ComandTran/src/RecvDataProc.cpp:287-294 | whatever b was given from a was given by a pass whose look at b, another client than a, read a PC by the commands b had executed, and then the camera that a had set, by the commands b had stored, both between the start and the end of the pass |
| RelayLogins.ServedWatchOrLogIn | ComandTran/src/RecvDataProc.cpp:287-294 | whoever was given a picture was at one moment of its pass, by its own commands, a PC set to the sender's camera, unless a login of its own straddles the look |
| RelayTheorems.ReceivePoolExact | ComandTran/src/FrameRestruct.cpp:201-226 | the blocks out of the receive pool are those of the tasks not yet released, also when their client has quit, and the one that each receiver is filling, each out for one of them only |
| RelayTheorems.SendPoolExact | ComandTran/src/EpollServer.cpp:287-354 | the blocks out of the send pool are those in lines, one per buffer, also in lines that left the table and are not released yet, and the one that each worker has filled and not yet queued |
| RelayTheorems.GivenWereSaved | ComandTran/src/RecvDataProc.cpp:287-294 | what b was given from a is, in order, among the frames saved for a |
| RelayRouting.StepKeepsRouted | ComandTran/src/RecvDataProc.cpp:263-295 | every step of any thread keeps, for all senders and receivers: passes in order, complete and right, and what was accepted in step with them |
| RelayRouting.StepKeepsSender | ComandTran/src/RecvDataProc.cpp:263-295 | every step keeps a sender's passes: started for each executed picture of a connected sender, one at a time, missing nobody who stays, each reading with the setting that commands had stored |
| RelayRouting.StepKeepsPair | ComandTran/src/EpollServer.cpp:287-325 | every step keeps what a receiver accepted from a sender equal to what the sender's passes gave it |
| RelayRouting.StepKeepsGone | ComandTran/src/EpollServer.cpp:301-309 | every step keeps that a client once found without a socket has none |
| RelayPool.StepKeepsPool | ComandTran/src/RecvDataProc.cpp:16-23 | every step keeps the receive blocks in one-to-one correspondence with unreleased tasks and blocks being filled |
| RelayConnection.StepMoves | ComandTran/src/RecvDataProc.cpp:105-173 | every step of the relay is, for each connection, one of its own moves or leaves it alone |
| RelayConnection.MoveKeepsSound | ComandTran/src/RecvDataProc.cpp:105-173 | every move keeps a connection's parsing, order, flow control and settings |
| RelayLine.StepKeepsLines | ComandTran/src/EpollServer.cpp:145-179 | every step keeps each connection's output conserved, its blocks owned and its buffers released once |
| RelayLine.StepKeepsHands | ComandTran/src/EpollServer.cpp:292-311 | every step keeps the send block in a worker's hand its own and the only one it has |
| RelayLine.OpenLineConservesBytes | ComandTran/src/EpollServer.cpp:131-182 | written and queued bytes together are the accepted ones |
| RelayLine.WroteFirstIsPrefix | ComandTran/src/EpollServer.cpp:145-179 | what was written is a prefix of all that was accepted |
| RelayInbound.StepKeepsWiring | ComandTran/src/MasterWorkPool.cpp:31-37 | every step keeps tasks with the worker of their connection and parses with its receiver |
| RelayTasks.SendTaskIsSteps | ComandTran/src/EpollServer.cpp:145-179 | a whole send task with any kernel answers is a run of send steps: same chain, same bytes, same releases |
| RelayTasks.ReceiveTaskIsSteps | ComandTran/src/RecvDataProc.cpp:105-122 | one call of the receive task is a run of its receiver's steps: same carry, same tasks behind the queue, same frame count, nothing else changed |
| RelayTasks.CommandIsStep | ComandTran/src/RecvDataProc.cpp:201-224 | the execution step of the state machine, followed by the second store if the command is a login of a client, changes the client table as the command dispatcher does; the worker then goes on to send what the dispatcher sends: the acknowledgement, the picture to its watchers, or nothing |
| RelayTasks.PictureRelayIsPass | ComandTran/src/RecvDataProc.cpp:286-294 | while the table does not change, a pass calls `SendData` for the same clients in the same order as the loop of `PicDataRecv` |

## Left out

- Sockets, epoll, thread creation, logging, signals, `main.cpp`, `cmdproc.cpp` and the test programs: input and output without logic of their own.
- The retired pool, `GetTask_Cust`, `AddTaskBatch` and the global read switches: not on the live path.
- `CMemChain::DeleteAt` and `CMemChain::Pop`: unused by the relay.
- `ShutDown` and the destructors: teardown only; `GetTask` after a shutdown is modelled.
- Reuse of a socket id while tasks or buffers of its previous connection exist: a connection is one session per id. The quit paths that do not call `RemoveSocket` leave such remains.
- Use of a map iterator after its lock was released (`ComandTran/src/EpollServer.cpp:309-312`, `ComandTran/src/RecvDataProc.cpp:115-117`): finding a line and pushing on it, and finding a client and parsing behind its carry, are one step each. So are a lookup that fails and the return of the block that was got for it.
- The send task's iterator (`ComandTran/src/EpollServer.cpp:134-145`): each turn of its loop is a step that looks the line up again and does nothing once the line has left the table. The code goes on with the line it found, also while `RemoveSocket` takes the line away and deletes it.
- The unlocked iteration of `PicDataRecv` (`ComandTran/src/RecvDataProc.cpp:271-294`) against inserts and erases: going on to the next client of the table as it is then is one step, and so is the lookup of the sender with the reading of its camera. A client erased while the loop is at it ends the look as `Vanished`; the code reads the erased entry.
- The lock of the client table during a login (`ComandTran/src/RecvDataProc.cpp:241-252`): of the sections that it keeps out between the two stores, only the quitting of the same client is kept out here. The others touch other clients or other fields, and may fall between the stores.
- The increment of `GrowCount` (`ComandTran/src/MemPool.cpp:103`) is one step in `RingGrowth`. The code increments a plain `int` without a lock, so an update can be lost, and each lost update allows further extensions.
- Concurrent wrap-around of the counters: `RingProtocol` has unbounded indices, which is the code as long as fewer than 2^32 elements are pushed; beyond that a CAS can mistake a counter for an older one.
- Send liveness: an event that is both readable and writable takes only the reading branch, so a queued buffer may wait for the next event. Nothing here says that queued bytes are eventually written.
- An upper bound on the frame count: the reading loop does not look at the flag while there are bytes to read, so the high mark only stops later reads.
- The width of `int` counters such as `FrameCount` and `m_BlockTotalCount`: the pools bound them far below 2^31.
- Outbound.SendConserves: `send` never answers 0 here; on 0 the loop of the code would spin.
- EpollServer.SocketInformation.Finish: the node's fields are read before the node is deleted; the code reads them after (`ComandTran/src/EpollServer.cpp:173-177`).
- EpollServer.Server.SendData: the queued send task is returned as a flag; that it joins the queue of its worker is `WorkerPool.MasterWorkPool.AddTask`. The caller's buffer must not be a block of the send pool.
- EpollServer.Server.ProcessTask: the map lookup and the chain work are one call; what other threads do between two turns of the loop is in the state machine, whose send step looks the line up again; see the line on the iterator above.
- FrameRestruct.Restructurer.RestructFrame: no other thread touches the pool during the call, so a frame without a block is followed by none with one; in the state machine blocks come and go between frames.
- FrameRestruct.Restructurer.SaveFrame: tasks are returned as a list instead of being queued one by one; the queueing is a step of the state machine.
- MemPool.Pool.CreatPool: with more blocks than the ring can keep apart only the counters are told; `GetBlock` is called on a created pool whose sizes fit, as the relay's do.
- MemPool.Pool.ExtendPool: with more blocks than the ring can keep apart only the count of extensions is told.
- MemPool.Pool.GetBlock: one thread at a time; several threads are `RingGrowth`, over `RingHandout`.
- MemPool.RelayPoolsFit: for one caller at a time; `RingGrowth.RelayPoolsStayWithin` is for the threads of the relay.
- RelayTheorems.FramesAreParsed: bytes that arrive before the client is admitted are read and dropped by the code; here they do not count as received.
- RelayTheorems.PassesAreComplete: that a call got no block is an answer of the pool, which may be refused at any time, as `RingProtocol.SpuriousPopRefusal` shows; the pool's size is not part of the state machine, so no run forces a watcher to be served.
- RecvDataProc.DataProc.CommandProc: calls into the socket server (`SendData`, `close`, `EnableRead`, `DisableRead`) are returned as values instead of being made.
- RecvDataProc.DataProc.PicDataRecv: the table does not change during the loop; changes between any two of its readings are in the state machine.
- WorkerPool.ThreadPool.GetTask: starts where the wait on the condition variable ends.
- WorkerPool.MasterWorkPool.AddTask: for ids that are not negative, as socket numbers are.
