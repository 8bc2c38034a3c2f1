# MMOGameServer: containers and wire codec

The server's own concurrent containers and its wire format, modelled and proved in Dafny:

- `CMemoryPool`, a lock-free free list under a tagged top with counter reservation (`MemoryPool.dfy`, `PoolCalls.dfy`,
  `PoolProgress.dfy`);
- `CLockFreeStack` and `CLockFreeQueue`, which recycle their nodes through such a pool (`LockFreeStack.dfy`,
  `StackCalls.dfy`, `StackProgress.dfy`, `StackOverPool.dfy`; `LockFreeQueue.dfy`, `QueueInvariant.dfy`,
  `QueueSafety.dfy`, `QueueProgress.dfy`, `QueueCalls.dfy`, `QueueMishap.dfy`);
- `CMemoryPoolTLS` and `CChunk`, the two-level allocator, and the reference counts of `CPacket` above it
  (`ChunkPool.dfy`, `ChunkCalls.dfy`, `PacketRefs.dfy`);
- `CRingBuffer`, first as a class over its array that refines a byte queue (`Ring.dfy`, `RingBuffer.dfy`), then as a
  machine shared by one producer and one consumer (`RingShared.dfy`, `RingCalls.dfy`);
- `CPacket`, its codec, its cursors and the race of several `EnCode` calls (`Bytes.dfy`, `Codec.dfy`, `Cursor.dfy`,
  `Packet.dfy`, `EncodeRace.dfy`);
- the receive path of a session, from the ring to decoded packets (`Framing.dfy`, `Receiver.dfy`).

`dafny verify dfyconfig.toml` checks the project.

## How the concurrent parts are modelled

Each lock-free structure is a state machine: a heap from node numbers to words, the tagged pointers, the counters, and
for each thread a program point with its locals. A step makes one shared access. A run is any sequence of steps of any
number of threads, and a theorem about `Play(s, mvs)` speaks of every interleaving. A failed 128-bit CAS writes the pair
it saw back into the comparand. History variables (the list in order, who holds a node, the order of CASes) only
record: what a step does to the real words does not depend on them, except that callers free only what they hold.

The structures are proved one on another through `Allocator`: the pool and the two-level allocator are shown to be
allocators, and the stack, the queue, the chunks and the packets are proved for any allocator and shown to use it
lawfully. For the stack the two machines are also run together, each Alloc and Free step by step in the pool
(`StackOverPool.dfy`): their parts always fit. `LinkedList`, `Census` and `Ledger` hold the facts about lists, about
counting threads and about keeping books over a run that the machines share.

What the calls do is stated against the moves of a run, from which the callers' arguments are read (`PoolCalls.dfy`,
`StackCalls.dfy`, `QueueCalls.dfy`, `ChunkCalls.dfy`, `RingCalls.dfy`, and at the end of `PacketRefs.dfy`): for every
interleaving a ledger matches each thread's calls with what its steps did, and for a call that runs alone from any
reachable state the whole outcome is given.

The queue has two assumptions. The link CAS is on an untagged pointer, so with several producers the pool must not
re-issue a node between some Enqueue's tail snapshot and its link CAS (`SparesAll`). One producer needs no assumption,
and `ReissueIsSafeIff` shows that the assumption is exactly what is needed. The tail tag that Dequeue leaves
uninitialised may be any value not above the current tail tag.

## The receive path

`Receiver.CompleteRecv` follows the loop of the same name in `MMOGameServer/MMOGameServer/MMOGameServer.cpp`, lines
393 to 451, check by check, over a `CRingBuffer` and new `CPacket` objects; `RingBuffer.CRingBuffer.Receive` follows the
two stretches that `RecvPost` hands to the socket, lines 252 to 285. The rows about them cite the ring and packet
functions they call. `Framing.ParseAll` is the same loop as a function of the bytes received; what the source promises
is proved of it.

## Where the code differs from what it sets out to do

- With two producers `CLockFreeQueue` can dequeue out of order: `QueueMishap.TwoProducersCanMisorder` gives the run,
  `QueueSafety.ReissueIsSafeIff` the exact condition.
- The packet declares 1024 bytes of payload and `EnCode` takes that many, but the receiver pushes header and payload
  behind its own five header bytes, so only payloads up to 1019 bytes come through: `Framing.SurvivesIff`.
- The receiver checks an announced length against 4000, copies the frame to a buffer of 1029 bytes and only then asks
  PushData for room. A complete frame of more than 1024 bytes does not fit the copy: `Framing.LengthsIff`, with a frame
  of 2000 bytes in `Framing.LongFrameOverruns`. What happens after such a copy is not defined and not modelled; the
  outcome Overrun stands in its place. No packet made by `EnCode` is that long: `Framing.ParseWire`.
- `GetFreeSize` of a packet counts from the data size, not from the write cursor, and so exceeds what `PushData` will
  take by the number of bytes popped: `Cursor.FreeSizeIff`, with one byte popped in `Cursor.FreeSizeCanExceed`.
- The `CChunk` constructor compares an index below 200 with 200 and so never stores the null it means to; the last
  block's next points past the array. It is never followed: `ChunkPool.EachBlockOncePerRound`.
- A second `EnCode` may return while the first has written nothing: `EncodeRace.ReturnsTooEarly`. The packet is ready
  if and only if no call is past the flag: `EncodeRace.ReturnedIsEncodedIff`.

## Model

| member | source | states |
|---|---|---|
| `MemoryPool.EachNodeHasOneHome` | MMOGameServer/MMOGameServer/MemoryPool.h:71-116 | In every state of every run, each node ever created is on the free list exactly once or held by exactly one thread, never both; every other number is in neither place |
| `MemoryPool.PopLoopNeverEmpty` | MMOGameServer/MMOGameServer/MemoryPool.h:73-94 | Reservation: the free list is at least as long as the number of threads in the pop loop, so none reads a null top, although the allocation count is read before the use count is raised and a Free pushes before it lowers the count |
| `MemoryPool.PopCasIsCurrent` | MMOGameServer/MMOGameServer/MemoryPool.h:86-92 | No ABA: a pop CAS that succeeds installs the current successor of the current first node, hands out a node that nobody held, and leaves a well-linked free list without it |
| `MemoryPool.PoolIsAnAllocator` | MMOGameServer/MMOGameServer/MemoryPool.h:71-116 | Refinement: every run of the pool is a history of the abstract allocator (issue only what is not live, retire only what is live) that its clients are proved against |
| `MemoryPool.IssuedOnceAtATime` | MMOGameServer/MMOGameServer/MemoryPool.h:71-116 | Over any run a node is handed out once more than it is given back while it is held, and equally often otherwise |
| `MemoryPool.QuietCounters` | MMOGameServer/MMOGameServer/MemoryPool.h:36-37 | With no call in flight, m_lUseCount is the number of held nodes and m_lAllocCount the number of held and free ones |
| `MemoryPool.KeepsInv` | MMOGameServer/MMOGameServer/MemoryPool.h:71-116 | Every step of every thread keeps the structural invariant, the counter equations and what every other thread relies on |
| `MemoryPool.Reachable` | MMOGameServer/MMOGameServer/MemoryPool.h:71-116 | The invariant holds along every interleaving |
| `PoolCalls.CallsTakeEffect` | MMOGameServer/MMOGameServer/MemoryPool.h:71-116 | In every interleaving, the nodes a thread has put on the free list, followed by the one of its Free in progress, are the arguments of its Free calls, in order, and it was handed as many nodes as it called Alloc, but for one in progress |
| `PoolCalls.AllocAlone` | MMOGameServer/MMOGameServer/MemoryPool.h:73-94 | An Alloc that runs alone from any reachable state hands out the first free node and creates none if the free list is longer than the number of other threads popping, creating or uncounting, and otherwise creates exactly one node; nothing else changes |
| `PoolCalls.QuietAllocRecycles` | MMOGameServer/MMOGameServer/MemoryPool.h:73-94 | With no call in flight and a free node, Alloc recycles and the allocation count stays |
| `PoolCalls.FreeAlone` | MMOGameServer/MMOGameServer/MemoryPool.h:98-116 | A Free that runs alone puts its node in front of the free list and lowers the use count; nothing else changes |
| `PoolProgress.Completes` | MMOGameServer/MMOGameServer/MemoryPool.h:84-115 | Obstruction freedom: from any reachable state, however stale its snapshot, an Alloc or Free that runs alone is over within 8 steps |
| `Allocator.Balance` | MMOGameServer/MMOGameServer/MemoryPool.h:33-34 | In any history of an allocator, issues minus retirements of an item say whether it is live at the end |
| `LockFreeStack.RefinesSequentialStack` | MMOGameServer/MMOGameServer/LockFreeStack.h:68-114 | LIFO at the CAS points: in every run the log of successful CASes, whose pushes are the callers' arguments by StackCalls.PushesWhatWasGiven, replays on a sequential stack, every pop returning its top, and leaves exactly the items linked from the top word, in order, despite recycling |
| `LockFreeStack.PopReturnsLoggedItem` | MMOGameServer/MMOGameServer/LockFreeStack.h:106-111 | The item Pop returns, read only after its CAS, is the one that was on top at the CAS |
| `LockFreeStack.PopCasIsCurrent` | MMOGameServer/MMOGameServer/LockFreeStack.h:104-107 | No ABA: with the top read as two separate words and the successor read later, a pop CAS succeeds only if node and successor are the current first and second, and the node carries the item on top of the sequential stack |
| `LockFreeStack.PopLoopNeverEmpty` | MMOGameServer/MMOGameServer/LockFreeStack.h:93-107 | Reservation: the stack is at least as long as the number of threads in the pop loop, so no null top is read and no dangling node followed |
| `LockFreeStack.UseCount` | MMOGameServer/MMOGameServer/LockFreeStack.h:84-95 | The counter is the length less pushes not yet counted, reserved pops and failed pops not yet undone |
| `LockFreeStack.StackObeysThePool` | MMOGameServer/MMOGameServer/LockFreeStack.h:70-110 | The stack gives back only nodes that are issued, unlinked and held by the freeing thread alone, so it is a lawful client of the pool |
| `LockFreeStack.KeepsInv` | MMOGameServer/MMOGameServer/LockFreeStack.h:68-114 | Every step of every thread keeps the invariant, the replay of the log included |
| `LockFreeStack.RunKeeps` | MMOGameServer/MMOGameServer/LockFreeStack.h:44-51 | The constructed stack satisfies the invariant and every run keeps it |
| `StackCalls.PushesWhatWasGiven` | MMOGameServer/MMOGameServer/LockFreeStack.h:68-88 | In every interleaving, what a thread has pushed at its CASes, followed by the item of its Push in progress, is the arguments of its Push calls, in order |
| `StackCalls.ReturnsWhatWasPopped` | MMOGameServer/MMOGameServer/LockFreeStack.h:91-114 | What a thread's Pops have returned, followed by what one past its CAS will return, is what the thread popped, in order, and every Pop called has answered but for one in progress |
| `StackCalls.RefusedIff` | MMOGameServer/MMOGameServer/LockFreeStack.h:93-98 | A Pop called in a reachable state answers empty if and only if the stack is no longer than the pushes not yet counted plus the pops in flight |
| `StackCalls.PopAlone` | MMOGameServer/MMOGameServer/LockFreeStack.h:91-114 | A Pop that is not refused and runs alone from any reachable state ends; it unlinks the first node, returns its item, which is on top of the sequential stack, gives the node back and changes nothing else |
| `StackCalls.PushAlone` | MMOGameServer/MMOGameServer/LockFreeStack.h:68-88 | A Push that runs alone from any reachable state ends with its item on a node in front of the stack and nothing else changed |
| `StackProgress.AdmittedReturn` | MMOGameServer/MMOGameServer/LockFreeStack.h:93-113 | In every interleaving each Pop that is let in returns an item, but for one in progress, whatever CAS it loses |
| `StackProgress.Completes` | MMOGameServer/MMOGameServer/LockFreeStack.h:76-113 | Obstruction freedom: from any reachable state, however stale its snapshot, a Push or Pop that runs alone is over within 9 steps |
| `StackOverPool.DisciplineHolds` | MMOGameServer/MMOGameServer/LockFreeStack.h:68-114 | The stack over the pool it really uses, Alloc and Free played step by step in the pool: in every state of every run, whatever move a thread can make next is lawful in both machines, so the stack only frees nodes that the pool says it holds and the pool only issues nodes the stack may take |
| `StackOverPool.StackRunsAsProved` | MMOGameServer/MMOGameServer/LockFreeStack.h:68-114 | The stack's part of such a run is a run of the stack's own machine, so what is proved for any allocator holds over the real pool |
| `StackOverPool.LifoOverPool` | MMOGameServer/MMOGameServer/LockFreeStack.h:68-114 | Over the real pool: the CAS log replays on a sequential stack to what is linked, and each node ever created is once in the stack, or held by one thread, or on the free list, never two of these |
| `StackOverPool.CallsOverPool` | MMOGameServer/MMOGameServer/LockFreeStack.h:68-114 | Over the real pool too, pushes are the arguments given and pops are returned, one answer for each call |
| `StackOverPool.KeepsInv` | MMOGameServer/MMOGameServer/MemoryPool.h:71-116 | Every move of the two machines together keeps both invariants and their coupling: where a thread stands in the pool fits where it stands in the stack, and the holders agree |
| `QueueSafety.FirstInFirstOut` | MMOGameServer/MMOGameServer/LockFreeQueue.h:56-125 | With many producers and consumers and nodes recycled by the pool under the snapshot assumption: items in order of head CAS are a prefix of items in order of link CAS, and the rest is linked from the head in order |
| `QueueSafety.OneProducerFifo` | MMOGameServer/MMOGameServer/LockFreeQueue.h:56-125 | The same with one producer and any number of consumers, with no assumption on which node the pool re-issues |
| `QueueCalls.OneProducerEndToEnd` | MMOGameServer/MMOGameServer/LockFreeQueue.h:56-125 | One producer, any number of consumers, no assumption: what has been dequeued, what is linked and what is being enqueued make up, in order, the arguments of the Enqueue calls |
| `QueueCalls.LinksWhatWasGiven` | MMOGameServer/MMOGameServer/LockFreeQueue.h:56-87 | In every interleaving, with any number of producers, what a thread has linked, followed by the item of its Enqueue in progress, is the arguments of its Enqueue calls, in order |
| `QueueCalls.ReturnsWhatWasTaken` | MMOGameServer/MMOGameServer/LockFreeQueue.h:89-125 | What a thread's Dequeues have returned, followed by what one past its head CAS will return, is what the thread unlinked, in order, and every Dequeue called has answered but for one in progress |
| `QueueCalls.RefusedIff` | MMOGameServer/MMOGameServer/LockFreeQueue.h:91-96 | A Dequeue called in a reachable state answers empty if and only if no more elements are linked than are uncounted or reserved |
| `QueueCalls.AdmittedReturn` | MMOGameServer/MMOGameServer/LockFreeQueue.h:91-124 | In every interleaving each Dequeue that is let in returns an item, but for one in progress, whatever CAS it loses |
| `QueueCalls.EnqueueAlone` | MMOGameServer/MMOGameServer/LockFreeQueue.h:56-87 | An Enqueue called in any reachable state that runs alone ends with its argument, and only that, linked |
| `QueueCalls.DequeueAlone` | MMOGameServer/MMOGameServer/LockFreeQueue.h:89-125 | A Dequeue that is not refused and runs alone from any reachable state ends and has taken and returned the oldest item not yet dequeued |
| `LockFreeQueue.OneProducerSpares` | MMOGameServer/MMOGameServer/LockFreeQueue.h:58-72 | With one producer no node is issued while an Enqueue is between its tail snapshot and its link CAS |
| `QueueSafety.DequeueTakesOldest` | MMOGameServer/MMOGameServer/LockFreeQueue.h:103-122 | A Dequeue whose head CAS succeeds returns the oldest item not yet dequeued and unlinks the current dummy |
| `QueueSafety.HeadCasHasNoAba` | MMOGameServer/MMOGameServer/LockFreeQueue.h:98-122 | Although the head CAS leaves the tag unchanged: if it succeeds, no head CAS of any thread has succeeded since its thread read the head |
| `QueueSafety.SnapshotStands` | MMOGameServer/MMOGameServer/LockFreeQueue.h:100-118 | What every step of every thread keeps about a head snapshot: while the tag is the same, either no head CAS has succeeded since or the node is out of reach of all dequeuers in the loop |
| `QueueInvariant.HeadCasIsCurrent` | MMOGameServer/MMOGameServer/LockFreeQueue.h:116-118 | At a successful head CAS the snapshot, its successor and the item read are the current first node, second node and first item |
| `QueueSafety.TailCasAdvancesOne` | MMOGameServer/MMOGameServer/LockFreeQueue.h:74-82 | A successful CAS on the tail, by the enqueuer or a helper, finds the tail next to last and moves it to the last node |
| `QueueInvariant.TailMoveKeeps` | MMOGameServer/MMOGameServer/LockFreeQueue.h:111-114 | Advancing a lagging tail, also by a Dequeue that helps, keeps the shape of the queue |
| `QueueInvariant.LinkIsAtEnd` | MMOGameServer/MMOGameServer/LockFreeQueue.h:66-72 | A link CAS that succeeds, on an untagged pointer, appends to the last node of the queue |
| `QueueSafety.Shape` | MMOGameServer/MMOGameServer/LockFreeQueue.h:63-85 | In every reachable state the chain from the head is acyclic, made of issued nodes that no thread holds, and the tail is its last or next-to-last node; every issued node is in the chain once or held, never both |
| `QueueSafety.UseCount` | MMOGameServer/MMOGameServer/LockFreeQueue.h:85-100 | The counter is the linked elements less those not yet counted, reserved dequeuers and failed dequeuers not yet undone; reserved dequeuers never outnumber linked elements |
| `QueueSafety.NeverFaults` | MMOGameServer/MMOGameServer/LockFreeQueue.h:66-120 | No thread follows a null or dangling pointer and none is stuck inside a call |
| `QueueSafety.QueueObeysThePool` | MMOGameServer/MMOGameServer/LockFreeQueue.h:58-120 | The queue gives back only nodes that are issued, unlinked and held by the freeing thread alone |
| `QueueSafety.ReissueIsSafeIff` | MMOGameServer/MMOGameServer/LockFreeQueue.h:58-72 | Exact condition for many producers: issuing a node is harmless in every continuation if and only if no Enqueue is between its tail snapshot and its link CAS on that node |
| `QueueSafety.MishapStrays` | MMOGameServer/MMOGameServer/LockFreeQueue.h:66-72 | When such a node is issued, at most three further steps leave an item linked to a node outside the queue |
| `QueueMishap.TwoProducersCanMisorder` | MMOGameServer/MMOGameServer/LockFreeQueue.h:56-125 | A concrete run with two producers, from the constructor on, in which the pool re-issues such a node and a Dequeue then returns an item ahead of one enqueued before it |
| `QueueInvariant.KeepsInv` | MMOGameServer/MMOGameServer/LockFreeQueue.h:56-125 | Every step of every thread keeps the invariant |
| `QueueInvariant.Reachable` | MMOGameServer/MMOGameServer/LockFreeQueue.h:56-125 | The invariant holds along every run in which the pool spares snapped nodes |
| `QueueInvariant.InitInv` | MMOGameServer/MMOGameServer/LockFreeQueue.h:26-39 | The constructed queue satisfies the invariant |
| `QueueProgress.EachStepCounts` | MMOGameServer/MMOGameServer/LockFreeQueue.h:64-84 | The measure (stale tags left to refresh and tail lag) falls with each step of a thread that runs alone inside Enqueue or past the count check of Dequeue |
| `QueueProgress.FinishesAlone` | MMOGameServer/MMOGameServer/LockFreeQueue.h:64-123 | From any reachable state, however stale its locals, an Enqueue, or a Dequeue past its count check, that runs alone makes at most 22 more steps |
| `QueueProgress.Completes` | MMOGameServer/MMOGameServer/LockFreeQueue.h:64-123 | And it ends: from any such state the thread alone, with nodes the pool may issue, gets back to its caller within 22 steps; so it is never stuck (obstruction freedom) |
| `ChunkPool.ChunkPoolIsAnAllocator` | MMOGameServer/MMOGameServer/MemoryPool.h:208-244 | Refinement: every run of the two-level allocator is a history of the abstract allocator |
| `ChunkPool.IssuedOnceAtATime` | MMOGameServer/MMOGameServer/MemoryPool.h:208-244 | Across all threads no live block is handed out twice |
| `ChunkPool.EachBlockOncePerRound` | MMOGameServer/MMOGameServer/MemoryPool.h:145-179 | Between two Initialize calls a chunk issues blocks 0, 1, .. 199 in order and each once; the past-the-end next that the constructor leaves is never followed |
| `ChunkPool.LastBlockClearsSlot` | MMOGameServer/MMOGameServer/MemoryPool.h:223-228 | The TLS slot is cleared after block 199 and after no other |
| `ChunkPool.RecycledOnceWhenEmpty` | MMOGameServer/MMOGameServer/MemoryPool.h:225-242 | A chunk goes back only when all 200 blocks were issued and freed, while no TLS slot refers to it and no block of it is held, and one thread gives it back |
| `ChunkPool.LastFreeRecycles` | MMOGameServer/MMOGameServer/MemoryPool.h:237-242 | A Free gives the chunk back if and only if its block is the last of the 200 |
| `ChunkPool.ChunksObeyThePool` | MMOGameServer/MMOGameServer/MemoryPool.h:214-242 | Chunks are taken from their pool and given back lawfully: each is given back only while it is issued, and then it is free again |
| `ChunkPool.NeverFaults` | MMOGameServer/MMOGameServer/MemoryPool.h:173-244 | No thread touches a chunk that does not exist or follows a next past the end, and none is stuck inside a call |
| `ChunkPool.KeepsInv` | MMOGameServer/MMOGameServer/MemoryPool.h:208-244 | Every step of every thread keeps the invariant of chunks, slots and blocks |
| `ChunkPool.Reachable` | MMOGameServer/MMOGameServer/MemoryPool.h:208-244 | The invariant holds along every interleaving |
| `ChunkCalls.CallsTakeEffect` | MMOGameServer/MMOGameServer/MemoryPool.h:208-244 | In every interleaving, the blocks a thread has freed, followed by the one of its Free in progress, are the arguments of its Free calls, in order, and it was handed as many blocks as it called Alloc, but for one in progress |
| `ChunkCalls.WaitFree` | MMOGameServer/MMOGameServer/MemoryPool.h:208-244 | Wait freedom above the pool of chunks: in every interleaving a thread makes at most twelve moves for each call |
| `PacketRefs.CountIsHolders` | MMOGameServer/MMOGameServer/Packet.cpp:40-63 | The reference count of a packet in circulation is its number of holders, at least one, and no Free finds it negative |
| `PacketRefs.HoldersFromCalls` | MMOGameServer/MMOGameServer/Packet.cpp:40-82 | The references of each thread to each packet, read off the calls alone: its Allocs and AddRefs and what it was given, less its Frees and what it gave, but for an Alloc in progress |
| `PacketRefs.WaitFree` | MMOGameServer/MMOGameServer/Packet.cpp:40-82 | Wait freedom above the pool: in every interleaving a thread makes at most three moves for each call and is never stuck |
| `PacketRefs.LastFreeGivesBack` | MMOGameServer/MMOGameServer/Packet.cpp:50-63 | A Free gives the storage back if and only if the caller is the only holder left |
| `PacketRefs.PacketsObeyThePool` | MMOGameServer/MMOGameServer/Packet.cpp:40-63 | Storage goes back once per issue, with no holder left, and Alloc never returns storage that still has one |
| `PacketRefs.KeepsInv` | MMOGameServer/MMOGameServer/Packet.cpp:40-82 | Every step of every thread keeps the invariant |
| `PacketRefs.Reachable` | MMOGameServer/MMOGameServer/Packet.cpp:40-82 | The invariant holds along every interleaving |
| `RingBuffer.CRingBuffer.constructor` | MMOGameServer/MMOGameServer/RingBuffer.cpp:15-33 | A new buffer is empty |
| `RingBuffer.CRingBuffer.Clear` | MMOGameServer/MMOGameServer/RingBuffer.cpp:35-40 | Empties and zeroes |
| `RingBuffer.CRingBuffer.GetFreeSize` | MMOGameServer/MMOGameServer/RingBuffer.cpp:47-55 | Capacity is size - 1: free plus used is size - 1 and never negative |
| `RingBuffer.CRingBuffer.GetUseSize` | MMOGameServer/MMOGameServer/RingBuffer.cpp:57-65 | The number of bytes in the queue |
| `RingBuffer.CRingBuffer.GetNotBrokenPushSize` | MMOGameServer/MMOGameServer/RingBuffer.cpp:67-80 | The longest free stretch from the write pointer that does not wrap |
| `RingBuffer.CRingBuffer.GetNotBrokenPopSize` | MMOGameServer/MMOGameServer/RingBuffer.cpp:82-90 | The longest used stretch from the read pointer that does not wrap |
| `RingBuffer.CRingBuffer.Enqueue` | MMOGameServer/MMOGameServer/RingBuffer.cpp:92-146 | Appends exactly the first min(n, free) bytes, across every wrap case, and returns that number |
| `RingBuffer.CRingBuffer.Dequeue` | MMOGameServer/MMOGameServer/RingBuffer.cpp:148-187 | Removes the first min(n, used) bytes, delivers them in order and touches no other byte of the destination |
| `RingBuffer.CRingBuffer.EnqueueIndex` | MMOGameServer/MMOGameServer/RingBuffer.cpp:189-237 | Moves the rear as the copying form does |
| `RingBuffer.CRingBuffer.DequeueIndex` | MMOGameServer/MMOGameServer/RingBuffer.cpp:239-273 | Removes the same bytes as the copying form |
| `RingBuffer.CRingBuffer.Peek` | MMOGameServer/MMOGameServer/RingBuffer.cpp:275-294 | Delivers what Dequeue would and changes nothing in the ring |
| `RingBuffer.CRingBuffer.Receive` | MMOGameServer/MMOGameServer/RingBuffer.cpp:189-237 | Data written in place in the stretch at the write pointer and then at the start of the buffer, and recorded by the index form, leaves the very state the copying form leaves |
| `RingBuffer.CRingBuffer.Consume` | MMOGameServer/MMOGameServer/RingBuffer.cpp:82-90 | The unbroken stretch at the read pointer is what Dequeue would copy |
| `Ring.PushAppends` | MMOGameServer/MMOGameServer/RingBuffer.cpp:92-146 | A push appends and disturbs no byte in the ring |
| `Ring.PopRemoves` | MMOGameServer/MMOGameServer/RingBuffer.cpp:148-187 | A pop drops a prefix and keeps the rest in order |
| `Ring.WrittenInOne` | MMOGameServer/MMOGameServer/RingBuffer.cpp:99-105 | A write that ends before the end of the array is one copy |
| `Ring.WrittenInTwo` | MMOGameServer/MMOGameServer/RingBuffer.cpp:130-132 | A write that wraps is two copies |
| `Ring.SegmentsCover` | MMOGameServer/MMOGameServer/RingBuffer.cpp:47-90 | The two contiguous stretches cover exactly the free cells, respectively the used ones, and free and used cells are disjoint |
| `RingShared.DeliversInOrder` | MMOGameServer/MMOGameServer/RingBuffer.cpp:92-187 | One producer and one consumer without a lock: in every interleaving of snapshots, single-byte copies and index stores, the bytes accepted are the bytes delivered followed by the bytes in the ring |
| `RingCalls.DeliversWhatWasOffered` | MMOGameServer/MMOGameServer/RingBuffer.cpp:92-187 | From an empty ring, what has been delivered, what is in the ring and what is being added make up, in order, as much of each Enqueue's argument as there were free bytes when it was called |
| `RingCalls.AcceptsWhatWasOffered` | MMOGameServer/MMOGameServer/RingBuffer.cpp:92-146 | The same for what has been accepted, from any reachable state |
| `RingCalls.DeliversWhatWasAsked` | MMOGameServer/MMOGameServer/RingBuffer.cpp:148-187 | As many bytes are delivered as the Dequeues of either form asked for, and read as a Peek asked for, each cut to what was in the ring when it was called |
| `RingCalls.WaitFree` | MMOGameServer/MMOGameServer/RingBuffer.cpp:92-294 | Wait freedom: in every interleaving each side makes at most one move for each byte its calls ask for and three more for each call |
| `RingCalls.NeverStuck` | MMOGameServer/MMOGameServer/RingBuffer.cpp:92-294 | Either side inside a call can always make a move |
| `RingShared.NeverOverwrites` | MMOGameServer/MMOGameServer/RingBuffer.cpp:97-132 | The producer writes only cells that hold no undelivered byte |
| `RingShared.PeekSeesNext` | MMOGameServer/MMOGameServer/RingBuffer.cpp:275-294 | A Peek, which looks at the rear twice, reads exactly the next bytes to be delivered |
| `RingCalls.DropTakesWhatPeekSaw` | MMOGameServer/MMOGameServer/RingBuffer.cpp:239-273 | The index form of Dequeue after a Peek drops the very bytes that were peeked, whatever the producer did in between |
| `RingShared.IndexFormPublishesAll` | MMOGameServer/MMOGameServer/RingBuffer.cpp:189-237 | The second look at the front in the index form takes back nothing of what was written under the first |
| `RingShared.StaysInBounds` | MMOGameServer/MMOGameServer/RingBuffer.cpp:92-294 | Every index used in any interleaving is inside the array |
| `RingShared.KeepsInv` | MMOGameServer/MMOGameServer/RingBuffer.cpp:92-294 | Every step of either side keeps the invariant |
| `RingShared.RunKeeps` | MMOGameServer/MMOGameServer/RingBuffer.cpp:15-21 | The invariant holds along every interleaving from an empty ring |
| `Bytes.XorTwice` | MMOGameServer/MMOGameServer/Packet.cpp:198 | Masking twice with a byte restores, for exclusive or defined bit by bit |
| `Bytes.XorSwap` | MMOGameServer/MMOGameServer/Packet.cpp:195-199 | Masks commute |
| `Bytes.XorIff` | MMOGameServer/MMOGameServer/Packet.cpp:195-199 | A byte is the exclusive or of two if and only if each of its eight bits, read off by division, is set exactly where theirs differ |
| `Codec.HeaderRoundTrip` | MMOGameServer/MMOGameServer/Packet.h:27-37 | The packed header with its little-endian length is read back as written |
| `Codec.WireBits` | MMOGameServer/MMOGameServer/Packet.cpp:179-201 | The bytes of an encoded packet: the code, the length with its low byte first, and bit by bit the random key as the exclusive or of key and both packet keys, and the checksum (the payload sum mod 256) and every payload byte as that of the plain byte and all three |
| `Codec.RoundTrip` | MMOGameServer/MMOGameServer/Packet.cpp:177-239 | For every payload up to 1024 bytes, every random key and all keys: decoding with the header from the wire accepts and restores payload, length, random key and checksum |
| `Codec.DetectsByteChange` | MMOGameServer/MMOGameServer/Packet.cpp:206-239 | Every change to one byte of the body of an accepted packet is rejected |
| `Codec.DetectsChecksumChange` | MMOGameServer/MMOGameServer/Packet.cpp:216-233 | Every change to the checksum byte alone is rejected |
| `Codec.SumChange` | MMOGameServer/MMOGameServer/Packet.cpp:185-194 | Changing one byte changes the additive checksum by the difference |
| `Packet.CPacket.EnCode` | MMOGameServer/MMOGameServer/Packet.cpp:177-204 | The first call puts the encoded packet in the buffer and leaves the rest; a later call changes nothing |
| `Packet.CPacket.DeCode` | MMOGameServer/MMOGameServer/Packet.cpp:212-238 | Returns true exactly when the code matches and the unmasked sum equals the unmasked checksum; the payload is unmasked in place and the header updated unless the code differs, when nothing changes whatever the length |
| `Packet.CPacket.SumPayload` | MMOGameServer/MMOGameServer/Packet.cpp:185-194 | The running checksum is the sum of the payload bytes |
| `Packet.CPacket.MaskPayload` | MMOGameServer/MMOGameServer/Packet.cpp:196-198 | The loop masks the payload and nothing else |
| `EncodeRace.EncodedExactlyOnce` | MMOGameServer/MMOGameServer/Packet.cpp:177-204 | However many threads call EnCode and interleave byte by byte, once one call has returned and none is in progress the packet is encoded once, under the random key that a returned call drew: DeCode with its own header restores the payload |
| `EncodeRace.ReturnedIsEncodedIff` | MMOGameServer/MMOGameServer/Packet.cpp:177-204 | Exact condition: after some call has returned, a packet that did not start with the packet code can be decoded if and only if no other call is past the flag |
| `EncodeRace.ReturnsTooEarly` | MMOGameServer/MMOGameServer/Packet.cpp:177-181 | A run of two callers in which the second returns while the buffer is untouched |
| `EncodeRace.WaitFree` | MMOGameServer/MMOGameServer/Packet.cpp:177-204 | Wait freedom: in every interleaving a caller makes at most 2 n + 5 moves on a payload of n bytes and is never stuck |
| `EncodeRace.KeepsInv` | MMOGameServer/MMOGameServer/Packet.cpp:177-204 | Every step keeps: at most one thread past the flag, and what it has done so far |
| `EncodeRace.Reachable` | MMOGameServer/MMOGameServer/Packet.cpp:177-204 | The invariant holds along every interleaving |
| `Cursor.CursorStream` | MMOGameServer/MMOGameServer/Packet.cpp:84-148 | Under any sequence of pushes and pops from a cleared packet the write cursor is read cursor plus data size plus 5 and inside the buffer, and the bytes popped are a prefix of the header bytes followed by everything pushed |
| `Cursor.RunsAsStream` | MMOGameServer/MMOGameServer/Packet.cpp:108-148 | The same from any cursor state, with the gap between the cursors conserved |
| `Cursor.ValuesRoundTrip` | MMOGameServer/MMOGameServer/Packet.cpp:252-382 | Scalars popped at the widths they were pushed with come out equal and in push order, whatever follows |
| `Cursor.BytesRoundTrip` | MMOGameServer/MMOGameServer/Packet.cpp:252-316 | A scalar is rebuilt from its bytes |
| `Cursor.ByteAt` | MMOGameServer/MMOGameServer/Packet.cpp:252-316 | Byte i of a scalar in memory is the one of weight 256 to the power i |
| `Cursor.SignedRoundTrip` | MMOGameServer/MMOGameServer/Packet.cpp:264-292 | So is a signed one, in two's complement |
| `Packet.CPacket.constructor` | MMOGameServer/MMOGameServer/Packet.cpp:12-22 | A new packet is clear: cursors 0 and 5, no data, flag clear |
| `Packet.CPacket.Clear` | MMOGameServer/MMOGameServer/Packet.cpp:28-38 | Restores exactly that state |
| `Packet.CPacket.GetFreeSize` | MMOGameServer/MMOGameServer/Packet.h:89-92 | Exceeds the room behind the write cursor by exactly the distance the reader has moved, so it is right if and only if nothing was popped |
| `Cursor.FreeSizeIff` | MMOGameServer/MMOGameServer/Packet.h:89-92 | Over any sequence of pushes and pops from a cleared packet: the excess over what PushData will take is the number of bytes popped, and it is zero if and only if none were |
| `Cursor.FreeSizeCanExceed` | MMOGameServer/MMOGameServer/Packet.h:89-92 | One byte pushed and popped: the answer is 1024 and PushData crashes on 1024 bytes |
| `Packet.FreeSizeAfterPop` | MMOGameServer/MMOGameServer/Packet.h:89-92 | The same on a packet object: 1024 promised, 1023 left |
| `Packet.CPacket.PushData` | MMOGameServer/MMOGameServer/Packet.cpp:108-117 | Performs the stream's push, inside the buffer, and touches no byte behind it |
| `Packet.CPacket.PushSize` | MMOGameServer/MMOGameServer/Packet.cpp:130-138 | The same for bytes already in place |
| `Packet.CPacket.PopData` | MMOGameServer/MMOGameServer/Packet.cpp:119-128 | Performs the stream's pop and returns its output |
| `Packet.CPacket.PopSize` | MMOGameServer/MMOGameServer/Packet.cpp:140-148 | Performs the stream's pop |
| `Packet.CPacket.PushValue` | MMOGameServer/MMOGameServer/Packet.cpp:252-316 | Pushes the bytes of a scalar |
| `Packet.CPacket.PopValue` | MMOGameServer/MMOGameServer/Packet.cpp:318-382 | Pops a scalar of the given width |
| `Packet.CPacket.SetHeader` | MMOGameServer/MMOGameServer/Packet.cpp:150-156 | Puts the header in front of the payload unless one is set already |
| `Packet.CPacket.SetHeaderCustom` | MMOGameServer/MMOGameServer/Packet.cpp:158-165 | Puts a shorter header right in front of the payload unless one is set already |
| `Packet.CPacket.SetHeaderShort` | MMOGameServer/MMOGameServer/Packet.cpp:167-175 | Puts a two-byte header there and moves the reader to it, narrowing the gap to 2, unless one is set already |
| `Framing.ChunksDoNotMatter` | MMOGameServer/MMOGameServer/Packet.cpp:206-239 | However a stream is cut into receives, the same packets come out and the loop stops for the same reason |
| `Framing.ParseMore` | MMOGameServer/MMOGameServer/Packet.cpp:206-239 | Cutting a longer stream is cutting its first part and then what was left over with the rest |
| `Framing.StopsIff` | MMOGameServer/MMOGameServer/Packet.cpp:206-233 | Exactly when the loop stops at the first frame, over its bytes: waiting for more, length above 4000, wrong code, or a sum that differs from the unmasked checksum |
| `Framing.StopsAt` | MMOGameServer/MMOGameServer/Packet.cpp:206-239 | The loop stops for the reason of the first frame that it does not accept |
| `Framing.SurvivesIff` | MMOGameServer/MMOGameServer/Packet.cpp:130-138 | Exact condition for a payload to come through, from PushData's own test on a new packet: at most 1019 bytes, although 1024 can be encoded |
| `Framing.RoomIff` | MMOGameServer/MMOGameServer/Packet.cpp:130-138 | A new packet has room for header and payload if and only if the payload has at most 1019 bytes |
| `Framing.LengthsIff` | MMOGameServer/MMOGameServer/Packet.h:19-20 | For a complete frame with the right code: the copy stays in the packet's buffer if and only if the length is at most 1024, and PushData then crashes if and only if it is above 1019 |
| `Framing.LongFrameOverruns` | MMOGameServer/MMOGameServer/Packet.h:135 | A frame of 2000 bytes passes every check before the copy and does not fit |
| `Framing.ParseWire` | MMOGameServer/MMOGameServer/Packet.cpp:177-239 | For any encodable payloads: all come out, or exactly those before the first of more than 1019 bytes, and then PushData crashes |
| `Framing.ParseEncoded` | MMOGameServer/MMOGameServer/Packet.cpp:177-239 | An encoded packet in front of anything is taken off and decoded, or PushData crashes on more than 1019 bytes |
| `Framing.FramesEndToEnd` | MMOGameServer/MMOGameServer/Packet.cpp:177-239 | For any encodable payloads and any chunking: exactly those payloads are recovered, in order, with nothing left over, if and only if each has at most 1019 bytes; otherwise those before the first longer one |
| `Framing.LeftoverIsShort` | MMOGameServer/MMOGameServer/Packet.cpp:177-204 | Along the way what waits is shorter than one packet and what is out is a prefix of what was sent |
| `Framing.ValuesEndToEnd` | MMOGameServer/MMOGameServer/Packet.cpp:252-382 | Typed values pushed into each packet are popped from each received packet, in order |
| `Receiver.PeekHeader` | MMOGameServer/MMOGameServer/RingBuffer.cpp:275-294 | Five bytes peeked from the ring, wrapped or not, are the header of the first frame |
| `Receiver.TakeFrame` | MMOGameServer/MMOGameServer/RingBuffer.cpp:148-187 | Any complete frame leaves the ring for a new packet, is pushed and decoded there; Overrun exactly when the copy would leave the packet's buffer |
| `Receiver.Open` | MMOGameServer/MMOGameServer/Packet.cpp:130-148 | Pushing a whole frame, decoding it and skipping five bytes leaves exactly the payload between the cursors; Crash exactly when PushData has no room |
| `Receiver.NextPacket` | MMOGameServer/MMOGameServer/Packet.cpp:206-239 | One turn of the loop over the ring and packet objects delivers the first frame, or stops for the reason the parse gives |
| `Receiver.CompleteRecv` | MMOGameServer/MMOGameServer/RingBuffer.cpp:148-237 | The loop over the ring and packet objects delivers exactly the packets of the parse, leaves exactly its rest in the ring and stops for its reason |
| `Receiver.Serve` | MMOGameServer/MMOGameServer/RingBuffer.cpp:148-237 | Any sequence of completed receives delivers what feeding the chunks to the parse yields |
| `Receiver.NeverJams` | MMOGameServer/MMOGameServer/RingBuffer.cpp:47-55 | Receives of up to 2976 bytes always find room in the ring of 4000 while encoded payloads of up to 1019 bytes arrive |
| `Receiver.Connection` | MMOGameServer/MMOGameServer/Packet.cpp:177-239 | End to end over the objects, for any encodable payloads and any chunks that find room: packets holding exactly the payloads sent, in order, when each has at most 1019 bytes, and otherwise those before the first longer one |

## Left out

- Weak memory effects: all machines are sequentially consistent.
- Wrap-around of the 64-bit tags and of the `long` counters, and overflow of ring index plus size: numbers are unbounded.
- The queue, stack, pool and chunks are machines over values, not classes with fields: aliasing between a node and other memory is not captured, and the address arithmetic from data to node is an identity on node numbers.
- Destructors, teardown and failure of `_aligned_malloc`, `new` or `TlsAlloc`.
- A linearizable "empty" answer of Pop and Dequeue: the counter may say empty while an element is being added; only the counter equations are claimed.
- QueueSafety.FirstInFirstOut: with several producers it assumes that the pool spares snapped nodes, which the code does not enforce; QueueSafety.ReissueIsSafeIff shows the assumption is needed.
- QueueProgress.FinishesAlone: counts shared accesses of the queue itself; the pool's Alloc and Free count as one step each.
- LockFreeStack.RefinesSequentialStack: Pop on an empty counter returns without touching the stack and is not an event of the log.
- Packet.CPacket.PushData: the crash on a full buffer is a precondition; likewise PopData on too little data. The WCHAR forms are the same with twice the size.
- Packet.CPacket.DeCode: the null header branch and `CPacket::operator=`, whose copy targets do not fit the layout; and a length above 1024 under the right code, which leaves the buffer.
- Packet.CPacket.EnCode: the random key is a parameter and ranges over all bytes, although the code draws it below 255.
- EncodeRace.ReturnedIsEncodedIff: a packet that starts with the packet code before it is encoded, as a cleared one does when the code is 0, may look encoded by chance and is left out of the only-if half.
- EncodeRace.EncodedExactlyOnce: the payload does not change while EnCode calls are in progress.
- Receiver.CompleteRecv: what the socket delivers is a parameter; posting the next receive, shutting the session down, freeing a rejected packet and the hand-over to the game thread are not modelled. Nothing is said of what follows a crash or an overrun.
- Receiver.NeverJams: Receiver.Serve and Receiver.Connection cover any chunks that fit the room they find; that they always find some is proved for receives of up to 2976 bytes.
- The `_UseCount` statistics of `CMemoryPoolTLS` and `CPacket`, and the unused `_AllocCount` of `CMemoryPoolTLS`.
- `float` and `double` values are bit patterns like any scalar of their width.
- Sessions, accept and send paths, the game loop, database, configuration, logging, the import-table hook, and the vendored MySQL headers.
- The two-byte framing of the LAN client.
