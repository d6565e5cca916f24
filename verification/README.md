# A verified model of the GRAS scheduler

GRAS runs a graph of signal-processing blocks. Each block is an actor; streams travel between
blocks as reference-counted views of shared memory that are never copied unless a consumer
needs more contiguous bytes than one view holds. This project models the two planes of that
design and proves what they are meant to guarantee.

**The buffer plane.** `Memory.dfy` is the store: flat regions and double-mapped rings, byte
addresses, aliasing. `Views.dfy` states what an input queue does to its views (stitch,
un-stitch, accumulate, consume) and proves that none of it changes the byte stream;
`Stitching.dfy` proves what push and consume make of the views themselves.
`InputQueues.dfy` is the input port as a class over that specification, with its auxiliary
buffers. `UnstitchGuard.dfy` says exactly when un-stitching is right, `PortFailures.dfy` gives
inputs on which the port's assertions fail. `CircQueue.dfy` is the ring producer,
`RingLink.dfy` joins it to an input queue and proves delivery and non-recycling over every
run; `PoolLink.dfy` does so for the pooled producer. `OutputQueues.dfy` is the pool with the
exact condition under which it never starves, `OutputPort.dfy` the output port over a pool or
a ring with mark_done's flush, `SBuffer.dfy` the reference count, `Allocator.dfy` the choice
of buffer length.

**The actor plane.** `Protocol.dfy` is the network of block actors: one first-in first-out
mailbox per block, one handler at a time per block, every post and every token operation of a
handler a step of its own. `ProtocolBarrier.dfy` and `ProtocolStart.dfy` prove the broadcasts
of start(), `ProtocolDone.dfy` the two-way propagation of "done" through token uniqueness,
`ProtocolRuns.dfy` the theorems over whole runs, `ProtocolPorts.dfy` the propagation upstream
in blocks with several output ports, `ProtocolData.dfy` that no data is left behind a done
mark at an input with one producer, `ProtocolFan.dfy` what holds with several,
`ProtocolProgress.dfy` that start() and the shutdown can always be finished, and
`ProtocolRevival.dfy` a run on which the start-up barrier fails. `Wakeup.dfy` is one actor's
ports and its decision whether to work, `Tags.dfy` and `TagChain.dfy` the stream tags,
`Handshake.dfy` the interruptible work thread. `TimeTag.dfy` is the time type.

Assumptions about what surrounds the code: a message is in the receiver's mailbox when the
send returns, mailboxes are first-in first-out, a post to a port reaches every connected peer
port, and the ring memory is mapped twice in a row.

## Where the code differs from its intent

The model keeps the code's behaviour. These are the places where that matters.

- Un-stitching (input_buffer_queues.hpp:362) trusts the bytes before a view's offset. It is
  right if and only if they equal the front's bytes; `UnstitchWithoutHistory` gives bytes
  on which accumulate and then consume return other data than was pushed.
- accumulate's final assertion (input_buffer_queues.hpp:286) holds exactly when the queue was
  emptied or the item size divides the maximum. The default maximum does not give that:
  `AccumulateTwelve` makes it fail with items of twelve bytes.
- A message marks a port ready whatever is queued (input_buffer_queues.hpp:164-168), so the
  assertion in front (:72) can fail; `Front` says exactly when, and `MessageWithPartialData`
  does it.
- Shrinking the preload (:240-243) passes a byte count to consume, which expects items;
  `AdjustPreload` states how much is then used up and when the assertion fails, and
  `PreloadTakenBack` makes it fail.
- A pool buffer that is at most half used stays in front (buffer_queue_pool.cpp:39-48) even
  when what is left is less than the reserve: the port is then never ready again.
  `PoolNeverStarves` gives the exact condition over all runs, `StarvedForGood` the "never".
- An inline buffer posted between two windows of one pool buffer makes the bytes before the
  second window other than the preceding stream: `InlineBetween`.
- input_fail's "not ready until a new buffer appears" (task_fail.cpp:41-42) does not last:
  update_input_avail, run after work, sets the bit again. `FailHolds` says when the block is
  nevertheless held back.
- mark_done pops output buffers of non-zero length (task_done.cpp:23-29); a ring queue's pop
  asserts length zero (buffer_queue_circ.cpp:97). `FlushPartials` completes if and only if no
  port refuses in the sense of `FlushRefused`; `ProduceThenMarkDone` is a run that does not.
- The back-propagation test asks for the bit of every output port (output_handlers.cpp:42,
  topology_handler.cpp:63), and a port that nobody reads never gets one: `BackPropagation`,
  `UnreadNeverDone`.
- With several producers of one input, the check of the first can find all of them gone while
  a buffer of another is still queued (input_handlers.cpp:72-88): the block may then be marked
  done with data unread. `DoneTooEarly` is such a run, `DoneWithDataBehind` what holds in all.
- A release callback that never keeps the last handle of a buffer is called again and again
  (sbuffer.cpp:19-25): the release does not return. `ReturnsExact` says exactly when.
- The test for done is made once per check (input_handlers.cpp:75-87): a block that drains
  later waits for the sweeper. `DrainsLater` is such a run.
- At an input without reserve that test looks at the availability bits of all inputs, and an
  input with less than its reserve is not available: `EndsWithRemainder` ends a block with two
  bytes queued. `MustEndMeans` says exactly what is passed over (input_handlers.cpp:84-87).
- The first window of a fresh pool buffer, and the first of a ring, carry no mark
  (input_buffer_queues.hpp:311), so that the second is not stitched to it: `WindowsFollow` in
  `RingLink.dfy` and `PoolLink.dfy` says that all others are.
- A block that hears of its producer's end before its own activation is marked done and then
  made LIVE again without tokens (block_handlers.cpp:16-21); wait() may then return while it
  is LIVE. `LiveWithoutTokens` is such a run, `StartBarrier` and `LiveHolds` the exact
  conditions.
- _handle_call keeps its copy of the priority token until it returns (block_calls.cpp:72-83);
  the kick that answers the call can be spent in vain. `LostWakeup` says that this is the only
  way to lose a wakeup, `Lives` that none is lost without it, `CallerKeepsCopy` is a run
  that loses one.
- A callable that marks its own block done destroys the thread it runs on
  (task_done.cpp:32, interruptible_thread.hpp:50-64). Then, and only then, both sides block
  (`BlockedExact`), and for good, in every such run (`StuckForGood`, `SelfDestroyDeadlocks`).
- recommend_length never returns when every reserve is zero and a length is hinted, and
  my_round_up_mult returns its first argument: `GrowthStops`, `RecommendLength`,
  `RoundUpMultIsIdentity`.
- Adding or subtracting time tags can leave the normal form that comparison relies on:
  `ArithmeticCanonical` says exactly for which operands, `PlusLeavesCanonical` gives one pair.

## Model

| member | source | states |
|---|---|---|
| Memory.WriteReadBack | include/gras/buffer_queue.hpp:39-47 | what a write stores is read back through any mapping, the ring included, as long as the range maps no cell twice |
| Memory.WriteElsewhere | include/gras/buffer_queue.hpp:39-47 | a write changes no cell that none of its addresses maps to |
| Memory.AliasShift | include/gras/buffer_queue.hpp:39-47 | the second mapping of the ring repeats the first: aliasing addresses stay aliases when both move on |
| Views.ContentsAreStream | lib/gras_impl/input_buffer_queues.hpp:55-77 | for every queue whose views carry the stream, their concatenated bytes are exactly the unconsumed stream |
| Views.PushKeeps | lib/gras_impl/input_buffer_queues.hpp:289-331 | push with stitching, for any number of adjacent views, appends exactly the pushed bytes to the stream and leaves every last-mark honest |
| Views.StitchDownKeeps | lib/gras_impl/input_buffer_queues.hpp:302-319 | the stitching loop moves bytes between adjacent windows without changing the stream |
| Views.DropKeeps | lib/gras_impl/input_buffer_queues.hpp:321-328 | dropping a back view that was drained into the same buffer loses no byte |
| Stitching.PushJoins | lib/gras_impl/input_buffer_queues.hpp:302-319 | after any push of bytes no two neighbours are left of which the second is not empty and continues the marked first |
| Stitching.PushApart | lib/gras_impl/input_buffer_queues.hpp:302-328 | what does not continue the last view is queued behind it as it is, and the others stay |
| Stitching.PushInto | lib/gras_impl/input_buffer_queues.hpp:302-328 | bytes that continue the last view become part of a view before the new one, of the last one if that is not empty; in the same buffer the queue does not grow |
| Stitching.PushStitched | lib/gras_impl/input_buffer_queues.hpp:289-331 | both cases, and the empty buffer that changes nothing: all that a push does to the views, in terms of their bytes and marks |
| Stitching.OneView | lib/gras_impl/input_buffer_queues.hpp:302-328 | however many windows of one buffer are pushed in a row, each marked with the end of the one before, a reader of the front gets them as one view |
| Views.ConsumeKeeps | lib/gras_impl/input_buffer_queues.hpp:333-369 | consume with un-stitching removes exactly the first n bytes of the stream and nothing else |
| Stitching.ConsumedExactly | lib/gras_impl/input_buffer_queues.hpp:333-367 | what consuming leaves: the rest of the front or the views behind it, and of these the first two as one exactly when the first ends where the second is marked and fits the bytes before its window |
| Stitching.ConsumedJoined | lib/gras_impl/input_buffer_queues.hpp:333-367 | consuming leaves no neighbours that stitching would join, if there were none before |
| Views.UnstitchHolds | lib/gras_impl/input_buffer_queues.hpp:356-367 | un-stitching leaves the stream unchanged when the bytes before the next window are the preceding stream bytes |
| Views.GatherKeeps | lib/gras_impl/input_buffer_queues.hpp:269-282 | each round of the copy loop keeps the stream: what is in the new buffer followed by what is left |
| Views.GatherElsewhere | lib/gras_impl/input_buffer_queues.hpp:269-282 | the copy loop writes no memory but its own buffer |
| Views.GatherLengths | lib/gras_impl/input_buffer_queues.hpp:266-282 | how many bytes the copy loop takes, and that it empties the queue exactly when they fit |
| Views.AccumulateHolds | lib/gras_impl/input_buffer_queues.hpp:251-287 | accumulation changes no byte of the stream, makes the front as large as the free bytes allow, and leaves the queue no longer than it was when its front fits, so that queueing the new front evicts nothing |
| Views.AccumulateLinked | lib/gras_impl/input_buffer_queues.hpp:280 | the marks it leaves are honest, so later stitching and un-stitching stay sound |
| Views.AccumulateAssertion | lib/gras_impl/input_buffer_queues.hpp:286 | the final assertion holds if and only if the queue was emptied or the item size divides the maximum |
| UnstitchGuard.UnstitchExact | lib/gras_impl/input_buffer_queues.hpp:362-367 | when the guard fires, the stream is kept if and only if the bytes before the second window equal the front window |
| UnstitchGuard.UnstitchWithoutHistory | lib/gras_impl/input_buffer_queues.hpp:269-284 | a queue without that history on which accumulate and then consume of one byte change the stream |
| AuxPool.TakeFree | lib/gras_impl/simple_buffer_queue.hpp:13-46 | a buffer from a non-empty free list may be filled: no queued view shows its memory |
| AuxPool.PushedPool | lib/gras_impl/input_buffer_queues.hpp:289-331 | a push keeps every view on item boundaries and queues no free auxiliary buffer |
| AuxPool.UnstitchedPool | lib/gras_impl/input_buffer_queues.hpp:356-367 | so does un-stitching, and the dropped buffer returns to the list once no view shows it |
| AuxPool.GatheredKept | lib/gras_impl/input_buffer_queues.hpp:269-282 | no auxiliary buffer is lost by the copy loop: each is free, held outside, queued, or the one being filled |
| AuxPool.UnstitchedKept | lib/gras_impl/input_buffer_queues.hpp:356-367 | nor by un-stitching |
| AuxPool.PushKept | lib/gras_impl/input_buffer_queues.hpp:289-331 | nor by a push |
| AuxPool.Grow | lib/gras_impl/simple_buffer_queue.hpp:35-43 | allocate_one adds a free buffer with memory of its own |
| InputQueues.AccumulateSound | lib/gras_impl/input_buffer_queues.hpp:251-287 | accumulating any queue keeps stream, marks, item boundaries and capacity, and succeeds exactly under AccumulateSucceeds |
| InputQueues.PreloadSound | lib/gras_impl/input_buffer_queues.hpp:226-237 | preload appends zero bytes to the stream and may be pushed like a buffer |
| InputQueues.HoldsFrame | lib/gras_impl/input_buffer_queues.hpp:55-77 | writes outside the memory of queued views up to their ends are not seen through them |
| InputQueues.InputPort.constructor | lib/gras_impl/input_buffer_queues.hpp:43-45 | an empty port, not ready, with the default reserve of one byte, the default maximum, no preload and no auxiliary buffers |
| InputQueues.InputPort.Update | lib/gras_impl/input_buffer_queues.hpp:149-157 | ready exactly when the reserve is enqueued |
| InputQueues.InputPort.Pop | lib/gras_impl/input_buffer_queues.hpp:103-108 | the front goes, and an auxiliary buffer returns to its list when its last handle goes |
| InputQueues.InputPort.AllocateOne | lib/gras_impl/simple_buffer_queue.hpp:35-43 | one more free auxiliary buffer; the port invariant stays |
| InputQueues.InputPort.CopyLoop | lib/gras_impl/input_buffer_queues.hpp:266-282 | the loop computes the specified gathering and counts the bytes it copied |
| InputQueues.InputPort.Accumulate | lib/gras_impl/input_buffer_queues.hpp:251-287 | keeps the port invariant, among it the stream and the enqueued count; returns whether the final assertion holds; leaves a front as long as the enqueued bytes or the whole items of the buffer |
| InputQueues.InputPort.Front | lib/gras_impl/input_buffer_queues.hpp:55-77 | succeeds exactly under the stated condition, then gives at least the reserve, whole items, and exactly the next bytes of the stream |
| InputQueues.InputPort.Stitch | lib/gras_impl/input_buffer_queues.hpp:302-328 | the in-place loop computes the specified stitching and leaves no two neighbours that could be one view |
| InputQueues.InputPort.Push | lib/gras_impl/input_buffer_queues.hpp:289-331 | any buffer is appended as Stitched says: joined with what it continues, otherwise queued as it is; capacity, count and ready bit follow; if it keeps the producer's promise, the port stays sound and the stream grows by exactly its bytes |
| InputQueues.InputPort.Consume | lib/gras_impl/input_buffer_queues.hpp:333-369 | fails exactly when more than the front is asked for and then changes nothing; otherwise the stream advances by exactly those items, and what is left of the views is what LeftOver says |
| InputQueues.InputPort.Unstitch | lib/gras_impl/input_buffer_queues.hpp:356-367 | the in-place step computes the specified un-stitching and keeps the auxiliary pool sound |
| InputQueues.InputPort.Resize | lib/gras_impl/input_buffer_queues.hpp:208-223 | after it the auxiliary pool has a free buffer of the new maximum, three of them if the pool had to be replaced and is otherwise as it was, and the stream is untouched |
| InputQueues.InputPort.Preload | lib/gras_impl/input_buffer_queues.hpp:226-237 | exactly delta zero bytes are appended |
| InputQueues.InputPort.AdjustPreload | lib/gras_impl/input_buffer_queues.hpp:225-244 | more preload appends zeros; less preload uses up the byte difference times the item size, or fails |
| InputQueues.InputPort.UpdateConfig | lib/gras_impl/input_buffer_queues.hpp:200-249 | when it succeeds, exactly under the stated condition, the port is valid under the new sizes and the stream changed only by preload |
| InputQueues.InputPort.UpdateHasMsg | lib/gras_impl/input_buffer_queues.hpp:164-168 | a message makes the port ready whatever is enqueued |
| InputQueues.InputPort.Fail | lib/gras_impl/input_buffer_queues.hpp:112-116 | not ready until the next update |
| InputQueues.InputPort.Flush | lib/gras_impl/input_buffer_queues.hpp:123-132 | nothing is queued; ready only when nothing is reserved |
| InputQueues.InputPort.Hold | lib/block_consume.cpp:29-32 | a handle given to the user keeps the buffer out of the free list |
| InputQueues.InputPort.Release | lib/sbuffer.cpp:14-25 | and the buffer returns when that handle goes, unless it is still queued |
| InputQueues.InputPort.Environment | lib/buffer_queue_circ.cpp:81-91 | the memory becomes the given one, and writes by others that keep to fresh memory leave the queued contents as they are |
| InputQueues.InputPort.Shorten | lib/gras_impl/input_buffer_queues.hpp:333-354 | the front moves past whole items and goes when that drains it; item boundaries and the auxiliary pool stay sound |
| PortFailures.FeedReady | lib/gras_impl/input_buffer_queues.hpp:289-331 | a buffer in memory of the producer's own always keeps the promise that push relies on |
| PortFailures.MessageWithPartialData | lib/gras_impl/input_buffer_queues.hpp:72 | a port with four bytes under a reserve of eight is made ready by a message, and the assertion in front fails |
| PortFailures.PreloadTakenBack | lib/gras_impl/input_buffer_queues.hpp:240-243 | eight bytes of preload in items of four, taken back: eight items are asked for, and the assertion in consume fails |
| PortFailures.AccumulateTwelve | lib/gras_impl/input_buffer_queues.hpp:286 | items of twelve bytes under the default maximum: the final assertion of accumulate fails |
| CircQueue.RoomForFront | lib/buffer_queue_circ.cpp:81-91 | while a chunk is available the ring has room for all of it, inside the double mapping |
| CircQueue.PopKeeps | lib/buffer_queue_circ.cpp:93-119 | handing out never exceeds the available bytes; available plus outgone bytes stay the ring length |
| CircQueue.PopRoots | lib/buffer_queue_circ.cpp:93-119 | chunks already out stay where they are, and the new one begins where the last ended |
| CircQueue.AckKeeps | lib/buffer_queue_circ.cpp:129-141 | the acknowledge loop keeps the accounting for any order of returns and ends at the first chunk not returned |
| CircQueue.AckRoots | lib/buffer_queue_circ.cpp:129-141 | acknowledging takes back no chunk that is still held and moves none |
| CircQueue.ReturnKeeps | lib/buffer_queue_circ.cpp:121-142 | the ring accounting survives any return |
| CircBuffer.BufferQueueCirc.constructor | lib/buffer_queue_circ.cpp:51-79 | all chunks returned, all bytes available |
| CircBuffer.BufferQueueCirc.Front | lib/buffer_queue_circ.cpp:81-91 | fails exactly when empty; otherwise the chunk at the write pointer, marked with the end of the previous one, within the double mapping |
| CircBuffer.BufferQueueCirc.Pop | lib/buffer_queue_circ.cpp:93-119 | fails exactly when empty or when length was left unposted; otherwise writes on from where the chunk ended |
| CircBuffer.BufferQueueCirc.AckLoop | lib/buffer_queue_circ.cpp:129-141 | the loop computes the specified acknowledgement |
| CircBuffer.BufferQueueCirc.Push | lib/buffer_queue_circ.cpp:121-142 | any return in any order keeps the ring valid and the write position; a foreign buffer changes nothing |
| RingLink.NextKeeps | lib/buffer_queue_circ.cpp:81-142 | every step of producer, mailbox, input queue and returns keeps the link invariant |
| RingLink.Delivered | lib/gras_impl/input_buffer_queues.hpp:289-369 | in every run, what was sent is what was read, followed by the queued bytes and the bytes in flight, in order |
| RingLink.WindowsFollow | lib/buffer_queue_circ.cpp:93-119 | in every run, wherever the ring wraps and whatever comes back between, of two windows produced one after the other the second is marked with the end of the first, and stitching joins them unless the first is the first of the run |
| RingLink.NoByteRecycledWhileReadable | lib/buffer_queue_circ.cpp:81-142 | in every run, the region offered for writing overlaps no byte readable through any queued or posted view, and no view reaches past the double mapping |
| RingLink.ProduceKeeps | lib/buffer_queue_circ.cpp:81-119 | writing into the front chunk and posting it keeps both queues |
| RingLink.GiveBackKeeps | lib/buffer_queue_circ.cpp:121-142 | so does returning a chunk no view needs |
| RingLink.GatheredKeeps | lib/gras_impl/input_buffer_queues.hpp:251-287 | and accumulating in the input queue |
| OutputQueues.WindowsContiguous | lib/buffer_queue_pool.cpp:31-49 | windows issued from one buffer are in order and contiguous, each marked with the end of the one before |
| OutputQueues.WindowsDisjoint | lib/buffer_queue_pool.cpp:31-49 | two windows of one buffer between returns share no byte |
| OutputQueues.PoppedPooled | lib/buffer_queue_pool.cpp:31-49 | posting whole items and popping keep every pooled buffer either fresh or used in whole items up to its half |
| OutputQueues.RunPooled | lib/buffer_queue_pool.cpp:31-60 | so does every run of posts and returns from an empty pool |
| OutputQueues.PoolNeverStarves | lib/gras_impl/output_buffer_queues.hpp:124-141 | over every run of whole-item posts and returns: a non-empty pool always has room for the reserve if and only if the reserve is at most the length minus the largest multiple of the item size within its half |
| OutputQueues.StarvedForGood | lib/gras_impl/output_buffer_queues.hpp:124-141 | a starved pool stays starved, however many buffers come back |
| OutputQueues.BufferQueuePool.Pop | lib/buffer_queue_pool.cpp:31-49 | fails exactly on an empty pool; otherwise the front is dropped when more than half used and marked for stitching when not |
| OutputQueues.BufferQueuePool.Push | lib/buffer_queue_pool.cpp:51-60 | only its own buffers are kept; its own buffer with a ring number is a failed assertion |
| OutputPorts.OutputPort.Update | lib/gras_impl/output_buffer_queues.hpp:124-141 | the ready bit agrees with the room in the front buffer |
| OutputPorts.OutputPort.ReadyIffPooled | lib/gras_impl/output_buffer_queues.hpp:124-141 | under the reserve condition of PoolNeverStarves the port is ready if and only if its pool has a buffer, until work fails the output |
| OutputPorts.OutputPort.SetPool | lib/gras_impl/output_buffer_queues.hpp:21-25 | a sound pool makes a sound port, its bit read from the pool |
| OutputPorts.OutputPort.SetRing | lib/gras_impl/output_buffer_queues.hpp:21-25 | so does a ring |
| OutputPorts.OutputPort.Push | lib/gras_impl/output_buffer_queues.hpp:43-48 | a returned buffer is queued, the bit agrees and the port stays sound; without a pool it is thrown away |
| OutputPorts.OutputPort.PushChunk | lib/gras_impl/output_buffer_queues.hpp:43-48 | a returned ring chunk updates the ring as specified and the bit agrees |
| OutputPorts.OutputPort.Produce | lib/block_produce.cpp:52-63 | the front, or the inline buffer, grows by what was produced and stays sound within its room; fails exactly when there is neither, or when it does not hold whole items |
| OutputPorts.OutputPort.Consume | lib/gras_impl/output_buffer_queues.hpp:64-95 | the front moves past what was produced and the queue goes on, pool or ring; nothing changes when nothing was produced; fails exactly when there is nothing to consume |
| OutputPorts.OutputPort.Post | lib/task_main.cpp:177-194 | what is posted is the produced window with its mark, from inline buffer, pool or ring, if an item was produced in this task; the buffer is consumed in any case, and an empty port is skipped |
| OutputPorts.OutputPort.SetInline | lib/gras_impl/output_buffer_queues.hpp:143-149 | an inline buffer makes the port ready whatever its room; a second one is refused |
| OutputPorts.OutputPort.Fail | lib/gras_impl/output_buffer_queues.hpp:97-101 | not ready |
| OutputPorts.OutputPort.Flush | lib/gras_impl/output_buffer_queues.hpp:50-55 | no queue, no inline buffer, the default reserve |
| OutputPorts.OutputPort.FlushPartial | lib/task_done.cpp:20-30 | a ready port whose inline buffer, or else whose front, has bytes sends exactly that window, whatever kind of queue it has; any other port sends nothing |
| OutputPorts.OutputPort.FlushRefused | lib/task_done.cpp:23-29 | over a sound port that flush fails if and only if the port is ready without inline buffer and a ring with bytes in its front chunk is behind it |
| OutputPorts.SentExactly | lib/task_done.cpp:23-29 | what the flush of one port sends is empty exactly when no byte waits there, and otherwise the window that holds them |
| OutputPorts.FlushBytes | lib/task_done.cpp:20-30 | the bytes sent over any number of ports are the bytes that waited on them |
| OutputPorts.FlushPartials | lib/task_done.cpp:20-30 | the loop of mark_done completes if and only if no port refuses; otherwise it ends at the first that does, after sending its window; every byte produced and not yet posted on the ports it got to goes out once |
| OutputPorts.ProduceThenMarkDone | lib/buffer_queue_circ.cpp:97 | two items produced into a ring and the block marks itself done: the flush sends them and fails |
| OutputPorts.PoolThenMarkDone | lib/task_done.cpp:20-30 | two items of four bytes produced into a pool buffer and the block marks itself done: the eight bytes go out |
| PoolLink.NextKeeps | lib/buffer_queue_pool.cpp:31-49 | every step of a pool producer, its consumer's mailbox and its queue keeps the link invariant |
| PoolLink.PromiseExact | lib/gras_impl/input_buffer_queues.hpp:362-367 | a posted window keeps the promise push relies on if and only if the used bytes of its buffer are the last bytes of the stream |
| PoolLink.Delivered | lib/gras_impl/input_buffer_queues.hpp:289-369 | in every run of a pool producer, what was posted is what was read, followed by the queued bytes and the bytes in flight, in order |
| PoolLink.WindowsFollow | lib/buffer_queue_pool.cpp:31-49 | in every run, of two windows posted one after the other from one front buffer the second is marked with the end of the first, and stitching joins them unless nothing of the buffer had been posted before the first |
| PoolLink.NotOverwritten | lib/buffer_queue_pool.cpp:31-49 | in every such run, the bytes to be written next are shown by no queued or posted view and precede none |
| PoolLink.InlineBetween | lib/gras_impl/output_buffer_queues.hpp:143-149 | an inline buffer posted between two windows of one pool buffer breaks the promise |
| SBuffers.ReturnsExact | lib/sbuffer.cpp:14-37 | a release returns if and only if it is not the last one under a live token whose callback never keeps the buffer; that one nests deeper than any number |
| SBuffers.ReleaseExact | lib/sbuffer.cpp:14-37 | one release that returns: the buffer dies if and only if the last handle goes without a live token, with the deleter run once if it owns memory; under a live token it is handed back with one fresh handle and nothing is deleted, however often the callback declines first |
| SBuffers.DeletedExactlyOnce | lib/sbuffer.cpp:9-37 | over any sequence of copies, drops that return and token expiry the deleter has run once if the buffer is dead and never otherwise |
| SBuffers.SBufferImpl.Release | lib/sbuffer.cpp:14-37 | the re-entrant release computes the specified outcome, and says so when it would never return |
| SBuffers.SBufferImpl.AddRef | lib/sbuffer.cpp:9-12 | one more handle |
| Allocator.SuperReserve | lib/block_allocator.cpp:33-38 | the least length covering the wanted minimum and every hinted reserve |
| Allocator.GrowthStops | lib/block_allocator.cpp:40-45 | the growing loop ends if and only if some reserve is positive or nothing is hinted |
| Allocator.RecommendLength | lib/block_allocator.cpp:27-52 | does not return if and only if no number of rounds reaches the hint; otherwise the least multiple of the largest reserve that reaches the hint, then capped; every reserve is covered exactly when the cap allows it |
| Allocator.RoundUpMultIsIdentity | lib/block_allocator.cpp:54 | the rounding macro returns its first argument |
| TimeTags.NormalizeKeepsTime | lib/time_tag.cpp:12-19 | normalisation never changes the time in ticks |
| TimeTags.RoundTrip | lib/time_tag.cpp:25-30 | to_ticks inverts from_ticks |
| TimeTags.ArithmeticIsExact | lib/time_tag.cpp:70-82 | += and -= are integer addition and subtraction of ticks |
| TimeTags.OrderIsInteger | lib/time_tag.cpp:84-93 | on canonical tags < and == are those of the tick counts |
| TimeTags.FromTicksMonotone | lib/time_tag.cpp:25-30 | from_ticks is strictly monotone for < over its range |
| TimeTags.CanonicalExact | lib/time_tag.cpp:12-30 | a tag equals the one made from its own ticks if and only if it is canonical |
| TimeTags.ArithmeticCanonical | lib/time_tag.cpp:70-82 | the sum and the difference of two canonical tags are canonical if and only if the sums (differences) of their fields fit together as SumOk says |
| TimeTags.PlusOfNonNegative | lib/time_tag.cpp:70-75 | the sum of two canonical tags that are not negative is canonical |
| TimeTags.PlusLeavesCanonical | lib/time_tag.cpp:70-75 | one second plus minus five ticks is not canonical, and compares wrongly |
| TimeTags.OutOfRangeReverses | lib/time_tag.cpp:14 | past the 32-bit quotient a later time compares as earlier |
| TimeTags.TimeTag.Normalize | lib/time_tag.cpp:12-19 | the fields become the normal form of the same time |
| TimeTags.TimeTag.AddAssign | lib/time_tag.cpp:70-75 | the ticks of the sum |
| TimeTags.TimeTag.SubAssign | lib/time_tag.cpp:77-82 | the ticks of the difference |
| Handshake.StepKeeps | lib/gras_impl/interruptible_thread.hpp:66-115 | every step of either thread keeps the handshake invariant |
| Handshake.CallReturnsAfterOneRun | lib/gras_impl/interruptible_thread.hpp:66-74 | for every interleaving and interrupt, a call that asked returns only after the callable was entered and completed once for it, or the runner is gone |
| Handshake.NoRunAfter | lib/gras_impl/interruptible_thread.hpp:76-106 | a callable that throws is not entered again and its run does not count as completed; nor is it entered after an interrupt, or the destructor, that finds the runner outside of it, whatever follows |
| Handshake.NoDeadlock | lib/gras_impl/interruptible_thread.hpp:66-115 | no reachable state leaves both sides asleep: some step of a thread is enabled while a call or the destructor is under way |
| Handshake.BlockedExact | lib/gras_impl/interruptible_thread.hpp:66-115 | in every reachable state in which somebody waits, no step of either thread is enabled if and only if the callable has destroyed its own thread object |
| Handshake.StuckForGood | lib/gras_impl/interruptible_thread.hpp:50-64 | whatever follows, then no call returns, no run of the callable is finished and the destructor does not end |
| Handshake.SelfDestroyDeadlocks | lib/task_done.cpp:32 | in every run in which a callable marks its own block done from inside work, the call it is part of never returns, whatever follows |
| Handshake.SelfDestroyHappens | lib/task_done.cpp:32 | there is such a run |
| ProtocolBarrier.TokenPostsAre | lib/block_handlers.cpp:48-73 | the tokens a block posts reach exactly the blocks that are to hold them |
| ProtocolBarrier.CheckPostsAre | lib/task_done.cpp:53-63 | the checks mark_done posts reach exactly the neighbours, each for its own port |
| ProtocolBarrier.BarrierKeeps | lib/element_impl.hpp:62-78 | through every step, each block owes at most one answer, and the count of outstanding answers is exact |
| ProtocolBarrier.PhaseOver | lib/element_impl.hpp:73-77 | a broadcast is over only when every block has answered it |
| ProtocolBarrier.AckExpected | lib/element_impl.hpp:73-77 | no answer comes that the top block is not waiting for |
| ProtocolStart.StartingKeeps | lib/block_handlers.cpp:41-79 | through every step before the activation, every token made is in the pool of the block that needs it or on its way there |
| ProtocolStart.TokensDelivered | lib/top_block.cpp:45-70 | when the fourth broadcast is answered every pool is complete and no token is in transit |
| ProtocolDone.UniqueMeans | lib/input_handlers.cpp:72-73 | a token is unique to its owner if and only if every block that needed it has cleared its pool |
| ProtocolDone.RunningKeeps | lib/task_done.cpp:13-63 | through every step from the activation on, pools are complete until cleared, done bits are true, and whoever does not know of a release yet has a check coming |
| ProtocolDone.ClosingBegins | lib/task_done.cpp:34-63 | mark_done changes the state, then clears the pool, then posts the checks |
| ProtocolRuns.BroadcastsInStep | lib/top_block.cpp:45-70 | in every run a broadcast reaches a mailbox only when every block has answered all earlier ones |
| ProtocolRuns.StartNeverStuck | lib/element_impl.hpp:62-78 | start() never waits in vain: the top block or a block that owes an answer can go on |
| ProtocolRuns.HandlersGoOn | lib/block_handlers.cpp:10-79 | no handler is ever stuck |
| ProtocolRuns.StartBarrier | lib/block_handlers.cpp:10-28 | about to go LIVE, a block holds the executor token and those of all neighbours if and only if it is not DONE |
| ProtocolRuns.LiveHolds | lib/block_handlers.cpp:16-21 | a LIVE block holds them all if and only if it had not been done before its activation |
| ProtocolRevival.LiveWithoutTokens | lib/block_handlers.cpp:16-21 | a run from start() to a state with a LIVE block without tokens in which wait() may return |
| ProtocolRuns.DoneIsTrue | lib/input_handlers.cpp:72-73 | in every run a done input or output means that its neighbour has cleared its pool and was DONE |
| ProtocolRuns.DoneIsExact | lib/task_done.cpp:34-63 | with nothing in flight, a connected port is done if and only if every neighbour on it has let go |
| ProtocolRuns.ReleasedIsDone | lib/task_done.cpp:34-38 | with nothing in flight and no revival, letting go and being DONE are the same |
| ProtocolPorts.UnreadNeverDone | lib/topology_handler.cpp:63 | in every run an output port that nobody reads is never done |
| ProtocolPorts.BackPropagation | lib/output_handlers.cpp:34-46 | with nothing in flight, a block whose every consumer has let go finds all its outputs done if and only if every one of its output ports is read; and then it has let go itself |
| ProtocolRuns.MarkDoneFirst | lib/task_done.cpp:13-15 | before any revival mark_done takes effect only while the block holds every token and no other mark_done is under way |
| ProtocolRuns.MarkDoneOnce | lib/task_done.cpp:13-15 | in every run, between two mark_dones of one block that take effect lies a revival of it |
| ProtocolRuns.LeaveExact | lib/top_block.cpp:110 | wait() can return if and only if every block has let go; each is then DONE or was revived |
| ProtocolRuns.SweeperHasWork | lib/top_block.cpp:125-138 | in an acyclic graph with all sources out, a quiescent state with a block holding on enables the sweeper on such a block |
| ProtocolRuns.SweptLetsGo | lib/top_block.cpp:135 | a block the sweeper acted on has let go by the next state with nothing in flight |
| ProtocolRuns.RoundShrinks | lib/top_block.cpp:125-138 | each round of the sweeper strictly shrinks the set of blocks that hold on |
| ProtocolRuns.ShutdownEnds | lib/top_block.cpp:110-139 | after as many rounds as there are blocks all have let go and wait() may return |
| ProtocolProgress.Drains | lib/block_handlers.cpp:10-79 | whatever is under way on the way up or in wait() can be worked off without user code posting anything, and then nothing is in flight |
| ProtocolProgress.StartReturns | lib/top_block.cpp:45-70 | for every graph there is a run in which start() returns with every block LIVE, holding every token it needs, and nothing in flight |
| ProtocolProgress.RoundExists | lib/top_block.cpp:125-138 | from every state in wait() with nothing in flight a round of the sweeper exists |
| ProtocolProgress.ShutdownPossible | lib/top_block.cpp:110-139 | in an acyclic graph with all sources out, every run that stands in wait() with nothing in flight can be continued to a state in which wait() may return |
| ProtocolData.NoDataBehind | lib/input_handlers.cpp:35-48 | once an input with one producer is done, none of that producer's buffers is queued or still to be posted |
| ProtocolFan.NoneLeftBehind | lib/input_handlers.cpp:35-48 | for any number of producers: once one has let go and posted its check, and no check of the input is in the mailbox, none of its buffers is queued or still to be posted |
| ProtocolFan.DoneWithDataBehind | lib/input_handlers.cpp:72-73 | a done input with a buffer still in the mailbox has another check on its way, behind that buffer or still to be posted by its producer |
| ProtocolFan.DoneTooEarly | lib/input_handlers.cpp:60-88 | with two producers there is a run from start() in which a LIVE block counts its input as done while a buffer for it is still in the mailbox |
| Wakeup.FailBitRestored | lib/task_fail.cpp:41-42 | re-reading the availability after work undoes the fail: the ready bit is as if there had been none |
| Wakeup.TrimmedPorts | lib/task_main.cpp:160-172 | after work each input is trimmed and re-read once, by what work used of it, whatever the others are |
| Wakeup.FailHolds | lib/task_main.cpp:160-172 | a block whose work does nothing but fail one input without messages may work again at once, on the same data, if and only if another input is available |
| Wakeup.TrimmedExactly | lib/task_main.cpp:160-172 | of an input, what work took is gone from its counts and nothing else |
| Wakeup.AbleMeans | lib/gras_impl/block_actor.hpp:122-131 | with bits that agree with the queues, work is allowed only when the block is LIVE, some input has data or a message, every input has its reserve or a message and every output has a front buffer with room for its reserve; and always then, unless work failed a port |
| Wakeup.MustEndMeans | lib/input_handlers.cpp:75-87 | the test for done on what is queued, in both directions: at a reserved input it needs the done bit and that nothing is offered there; at one without reserve it needs this of every input |
| Wakeup.EndsWithRemainder | lib/input_handlers.cpp:75-87 | inputs of different reserves for which the test passes over two queued bytes, and ending the block drops them |
| Wakeup.BlockActor.constructor | lib/topology_handler.cpp:46-86 | a block before start() with its availability read from its ports |
| Wakeup.BlockActor.UpdateInputAvail | lib/gras_impl/block_actor.hpp:114-120 | the availability of one port from its bit and messages, then the bit from its queue |
| Wakeup.BlockActor.TakeBuffer | lib/input_handlers.cpp:43-46 | one buffer and its bytes more; with the reserve there the port is ready and available |
| Wakeup.BlockActor.TakeMessage | lib/input_handlers.cpp:28-31 | one message more; the port is ready and available whatever is queued |
| Wakeup.BlockActor.TakeReturned | lib/output_handlers.cpp:17-20 | its own buffer goes behind the others; the bit says whether the front has room for the reserve |
| Wakeup.BlockActor.CallWork | lib/task_main.cpp:66-198 | each call of work is put on record with the ports, token copies and mailbox it found; the record stays faithful |
| Wakeup.BlockActor.EndIfDone | lib/input_handlers.cpp:84-87 | a LIVE block with a reserved input that is not done does not end there; otherwise it ends as Checked says |
| Wakeup.BlockActor.TaskKicker | lib/gras_impl/block_actor.hpp:109-112 | a kick is sent exactly when work is allowed, which AbleMeans explains; the look leaves no wakeup to be lost but for a kept copy |
| Wakeup.BlockActor.MarkDone | lib/task_done.cpp:13-51 | the block is done, its input queues are empty and its output queues gone with their bits cleared; a second call changes nothing |
| Wakeup.BlockActor.TaskMain | lib/task_main.cpp:66-198 | nothing happens when work is not allowed; otherwise work is called once, with something to do (Faithful), every port is trimmed and re-read, and if work is possible again and nothing urgent arrived a kick follows |
| Wakeup.BlockActor.InputFail | lib/task_fail.cpp:18-43 | all branches: accumulate and look again, mark done, the failed assertion, or the bit reset |
| Wakeup.BlockActor.HandleSelfKick | lib/block_handlers.cpp:123-129 | another look; it is spent while anybody holds a copy of the priority token |
| Wakeup.BlockActor.HandleCallable | lib/block_calls.cpp:11-40 | a call ends in a kick |
| Wakeup.BlockActor.HandleTopActive | lib/block_handlers.cpp:10-28 | the activation ends in a kick |
| Wakeup.BlockActor.HandleSetup | lib/block_handlers.cpp:41-79 | the broadcasts before the activation change nothing a look depends on |
| Wakeup.BlockActor.HandleTopInert | lib/block_handlers.cpp:30-39 | the block is done |
| Wakeup.BlockActor.HandleInputBuffer | lib/input_handlers.cpp:35-48 | the buffer is queued and counted, the port is ready and available once its reserve is there, and then the block looks; a done block drops it |
| Wakeup.BlockActor.HandleInputMsg | lib/input_handlers.cpp:20-33 | a message makes its port ready and available, and the block looks |
| Wakeup.BlockActor.HandleOutputBuffer | lib/output_handlers.cpp:9-22 | a returned buffer of its own goes to the end of its queue, the bit is computed from the front, and the block looks |
| Wakeup.BlockActor.HandleInputCheck | lib/input_handlers.cpp:60-88 | one more attempt at work, then the end exactly as MustEndMeans explains; a check that is not unique never ends a LIVE block at a reserved input unless work itself does, and one that is unique ends it there when nothing is left |
| Wakeup.BlockActor.LostWakeup | lib/gras_impl/block_actor.hpp:122-131 | with an empty mailbox the block could work if and only if its last look was refused for a kept token copy alone; every handler keeps the invariant behind it |
| Wakeup.BlockActor.NothingToDo | lib/gras_impl/block_actor.hpp:122-131 | the same of one state: with an empty mailbox nothing in the queues could be worked on |
| Wakeup.BlockActor.Lives | lib/gras_impl/block_actor.hpp:122-131 | any run of letters, handlers and kept copies: work is called only when the block is LIVE with something to do at every port and nobody asks for priority, and with an empty mailbox there is no data, message and room that work was not offered, unless a copy was kept or work failed a port since; without kept copies none is refused |
| Wakeup.CallerKeepsCopy | lib/block_calls.cpp:69-84 | a run that ends with an empty mailbox, no token copy outstanding and work allowed |
| Wakeup.DrainsLater | lib/input_handlers.cpp:75-87 | a block that drains after its check stays LIVE with an empty mailbox although the test for done would now succeed |
| Wakeup.HeldBack | lib/gras_impl/block_actor.hpp:122-131 | back-pressure: with data but no output buffer a kick is spent and nothing changes; the returned buffer makes work run, once |
| Wakeup.DataWakes | lib/input_handlers.cpp:35-48 | eight bytes come to a LIVE block that waits, and work is called with them |
| Wakeup.OneProducerLeft | lib/input_handlers.cpp:60-88 | the check of the first of two producers leaves a drained block LIVE |
| Tags.MovedOnce | lib/block_message.cpp:44-45 | the subtraction and the addition, each modulo 2^64, are one addition modulo 2^64 |
| Tags.MovedExact | lib/block_message.cpp:44-45 | the two 64-bit wrap-arounds of moving an offset cancel whenever the result fits |
| Tags.ForwardedAligned | lib/block_message.cpp:37-49 | tags of just consumed items are forwarded in order and keep their distance from the count, on positions not produced before |
| Tags.CutCounts | lib/task_main.cpp:28-41 | trimming is exact: each tag is forwarded or kept as often as it was stored, by its offset alone |
| Tags.Sort | lib/task_main.cpp:15 | some ordering by offset |
| Tags.TagStore.constructor | lib/topology_handler.cpp:51-72 | nothing received, nothing consumed |
| Tags.TagStore.HandleInputTag | lib/input_handlers.cpp:8-18 | the tag is stored and counted as received |
| Tags.TagStore.SortTags | lib/task_main.cpp:11-17 | sorted, nothing lost |
| Tags.TagStore.PropagateTags | lib/block_message.cpp:37-49 | every output gets every trimmed tag once, in order, moved by the counts as of the start of work |
| Tags.TagStore.TrimTags | lib/task_main.cpp:19-42 | exactly the tags below the consumed count leave, and are propagated |
| Tags.TagStore.TrimAll | lib/task_main.cpp:160-172 | the same for every input in turn, each count advanced after its trimming |
| Tags.TagStore.Process | lib/task_main.cpp:160-194 | inputs sorted, work, inputs trimmed, output counts advanced: every tag received stays stored or gone, each input is cut at its new count |
| Tags.TagStore.ExactlyOnce | lib/block_message.cpp:37-49 | over all tasks of a run, the tags an output got from an input are exactly those that left that input, each as often |
| Tags.TagStore.Task | lib/task_main.cpp:66-198 | over a task every tag received is forwarded once or kept, none kept lies below the consumed count, and outputs get the block's own tags and then the forwarded ones |
| TagChain.SentOnTime | lib/task_main.cpp:160-194 | whatever one task sends is on time for a receiver that has got all earlier items |
| TagChain.Parted | lib/task_main.cpp:28-41 | a task parts the stored tags: each is sent or kept, as often as it was there |
| TagChain.MovedAligned | lib/block_message.cpp:44-45 | a forwarded tag is as far past what the block produced as it was past what it consumed |
| TagChain.OneToOne | lib/block_message.cpp:37-49 | a block that has produced as much as it consumed hands tags on where they were |
| TagChain.TagsNeverLate | lib/block_message.cpp:37-49 | in every run of a chain of blocks of any rates, a tag arrives before the item it marks |
| TagChain.ItemsConserved | lib/task_main.cpp:177-194 | items produced are items received plus items in flight |
| TagChain.TagsConserved | lib/block_message.cpp:37-49 | in every run, the tags a block posted are those the next one received and those on the way, and those it received are in its store or were forwarded |

## Left out

- The actor protocol is a state machine on values, not classes over a shared heap: handlers of
  different blocks interleave at every post, which per-object methods could not express. What
  is not captured is the memory layout of the queues inside the actors; those are the classes
  of the buffer plane.
- Posts to several peers go out in the order of the edge list, one port after the other, input
  ports first; the order in which the topology library visits peers is not modelled.
- ProtocolData.NoDataBehind: for inputs with one producer; with several it fails on the run of
  DoneTooEarly, and NoneLeftBehind says what holds instead.
- ProtocolRuns.ShutdownEnds: a round of the sweeper is given as a stretch of a run that begins
  and ends with nothing in flight. RoundExists shows that there is one; that user work stops
  posting in every run is not provable. The grace period and the polling interval are
  arbitrary delays.
- Allocator.RecommendLength: a call that does not return is a result of its own, since a
  method here has to end.
- InputQueues.InputPort.Resize: for an item size that divides the queued lengths; with another
  one the source goes on, and consume may then end inside an item.
- InputQueues.InputPort.Preload: for preloads that fit one auxiliary buffer; the source clears
  as many bytes as asked for whatever the buffer's size, and what that overwrites is not
  modelled.
- InputQueues.InputPort.AdjustPreload: likewise.
- InputQueues.InputPort.UpdateConfig: likewise. An item size above the maximum is modelled; it
  leaves a port whose stream is sound, but for which front may fail in more ways than `Front`
  states.
- OutputPorts.OutputPort.Push: a pool buffer comes back as the release callback leaves it, its
  window reset, and none comes back while a window is being produced.
- OutputPorts.FlushPartials: ports of a block share no queue; notify_inactive is user code.
- Wakeup.BlockActor.TaskMain: what work does to its ports is a parameter; the bytes themselves
  are the business of the input and output queues.
- Wakeup.BlockActor.Lives: what it says of queue contents is for runs in which no done block is
  activated (see `LiveWithoutTokens`) and whose calls of work set no output's bit without room.
- Wakeup.BlockActor.InputFail: how many views accumulation leaves is a parameter.
- PoolLink.Delivered: one producer with one consumer; an inline buffer is not a step of the
  link, because it breaks the promise the link keeps.
- TagChain.TagsNeverLate: for one input and one output per block, equal item sizes and no
  preload, while 64-bit counts do not wrap.
- Buffer allocation requests between blocks, which may replace an output queue, and allocation
  hints with their weak tokens.
- Restarting a running graph, changing connections, live reserve changes, the timed wait().
- Thread pools, the message library, NUMA memory and the shared-memory mapping of the ring.
- Idle-time and throughput statistics.
- Inlining's affinity check; the output port takes any buffer it is told to inline.
- Conversions of time tags through floating point.
- What user code does in work, beyond consuming what it was offered and producing what fits.
- Message storage of an input port (pop_input_msg, trim_msgs), except for its effect on
  readiness: an index and an erase, easy members only.
- Configuration merging, element paths, queries, factories, bindings.
