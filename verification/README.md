# SecureIVSHMEM: the channel protocol, verified

A Dafny model of the parts of SecureIVSHMEM where several parties change one shared state,
with proofs of what every run of them keeps.

1. **Page ring** (`PageRing`, `RingFifo`, `RingRepack`, `RingStream`, `RingPages`, `RingSizes`,
   `RingProgress`, `RingRoundTrip`, with `Schedules`). One sender and one receiver of a page-mode channel
   (`IVSHMEM_TYPE == 2`), as a state machine whose steps are the single accesses to shared
   memory; a `memcpy` is one step per byte, and the full test reads `tail` in two steps. Other
   steps set and clear `control_mutex`, repack the channel, wherever the two sides are, and write
   other channels' pages.
   Results: FIFO delivery under every interleaving; what every published page holds, for every
   size; message and byte-stream round trips with their exact domain; conservation of
   `data_size`; deadlock freedom and termination under every fair schedule.
2. **Control section** (`ChannelTable`, `TableShape`, `TableKeys`, `Requesters`, `ControlMutex`).
   Lookup, requests, creation and rebalancing as methods of a class that updates the section in
   place, each proved against a function on the section's value; then what every run of those
   functions keeps: the layout of the data section, the exactness of the rebalancer's early exit,
   room for the next channel, stable handles; exactly when a request is granted, with the trusted
   side acting between any two of its accesses and any number of requests overlapping; exactly
   when keys stay distinct and when the mutex is left set.
3. **Repacks and queues** (`RepackQueue`). Exactly which repacks keep the pages queued on a
   channel, and why one channel's traffic does not touch another's pages.
4. **The whole system** (`SharedSection`, `SystemProgress`). All channels, their sides, the control
   section and the data section in one state; each channel sees a run of its own ring, safely and,
   under fair schedules, to its end; and which channel a key leads to.
5. **Lock-based channel** (`LockChannel`, `LockProgress`, `LockKeys`). Mutual exclusion, delivery
   for every size, progress, and who takes a message and who never does.
6. **Client peer table** (`PeerTable`). Connecting, refinement of a map from id to descriptors,
   and a ledger of every descriptor, with exactly which ones the client loses.
7. **mmap interception** (`MmapHook`). The re-entrant hook in front of the page-mapping loop.

`Layout` holds sizes and shared types. `dafny verify dfyconfig.toml` checks everything.

## Assumptions

- Memory is sequentially consistent; a channel has one sender and one receiver.
- A repack happens while `control_mutex` is set, at any time between two accesses of a side, and is
  one step against them; so is the update of `head` or `tail`. A copy whose page has been moved
  under it is not followed (see "Left out").
- The functions of the trusted side run one after the other, in one process. A service is two steps
  against the requesters: up to the new channel, and the clearing of the flag. A key is copied as
  one access.
- Sizes are those of 64-bit Linux: `size_t` wraps at 2^64 (the send loop's subtraction does),
  page indices are 32-bit, the control section has 2080 bytes. Receivers count in `int`, so a
  receive asks for less than 2^31 bytes.
- The sender's buffer is readable as far as the loop reads it, which is up to the end of its
  last page and thus past `size` when `size` is not a whole number of pages.
- The outcomes of `malloc`, `calloc`, `socket`, `connect` and of each page remap, what the others do
  while a request waits, the file name behind a mapping, and the messages of the ivshmem server
  are parameters.

## What turned out to differ from what one might expect

- The send loop computes `to_sent` from `size - IVSHMEM_PAGE_SIZE`, not from what is left
  (`secure_ivshmem/src/ivshmem_secure.c:90`). Receives are right if and only if no size is in
  [PAGE, 2 * PAGE) (`ReceivesExactly`, `SizesExactly`, `RoundTripExactly`); at exactly one page the
  call never returns (`OnePageNeverEnds`), and the receive of the first message of such a size
  holds stale memory (`SizeLaw`). All other sizes work, whole pages or not, when receives ask for
  the sizes that are sent. The loop reads past the caller's buffer unless the size is a multiple of
  what an iteration copies (`ReadsInside`).
- `data_size` drifts by the unused part of the last page of every receive that is not a whole
  number of pages, and, for sizes in [PAGE, 2 * PAGE), by what the published pages miss
  (`DataSizeConserved`).
- A request sets its flag before it stores its key
  (`secure_ivshmem/src/ivshmem_secure.c:36-37`). Served in between, it makes a channel for the
  previous candidate and finds none itself, unless that one matches too (`RequestGranted`,
  `EarlyServiceFails`); this is also exactly when a request by itself makes a second channel with
  one key (`RequestDistinctExactly`). Overlapping requests can do so too, and one can be lost
  (`DistinctExactly`, `TwoRequestsRepeat`, `CreationOverlapRepeats`, `RequestLost`).
- A repack moves no page contents. It keeps a non-empty queue only on channel 0, and there only
  if the queue does not wrap and fits (`RepackKeepsQueueExactly`). The trusted side does not wait
  for a side that is inside an iteration: a repack then disturbs at most a sender between its full
  test and its publication (`SidesKeptExactly`), which can lose the whole ring
  (`RepackInsideFails`).
- A failed allocation in the rebalancer leaves `control_mutex` set (`RebalanceMutex`,
  `MutexLeftSet`) until a service ends or a rebalance succeeds (`MutexExactly`), and
  meanwhile neither side of any ring gets past the top of its loop (`MutexStalls`).
- `secure_ivshmem/include/ivshmem_lock_base.h:43-69` says that the mutex is locked first and
  `data_size` bytes are copied; the code tests `ref_count` before the mutex and the receiver
  never reads `data_size`. The model follows the code, and the proof shows that exclusion rests
  on `ref_count`, the mutex being tested and set in two steps.
- The receiver of the lock-based channel reads the fields of the key one by one. With a field of
  its key in the section from before, it can take a message meant for another
  (`StaleKeyAdmits`); with the section as initialised and VM ids other than 0 it takes its own
  messages and no others (`DeliversExactly`, `ForeignReceivesNothing`).
- The mmap wrapper returns 0 whatever the mapper returned (`WrapperHidesFailure`).
- The client neither stores nor closes the descriptor of a message beyond 64 vectors, or of one
  for which the new peer cannot be allocated, and loses no other (`HeldOrClosedExactly`,
  `OwnVectorsDropped`); while connecting it loses a descriptor that comes with one of the two
  greetings, and no other (`ConnectionTakesExactly`), and a client that is connected already loses
  its socket, and its shared memory if the new connection succeeds (`ReconnectExactly`).

## Model

| member | source | states |
|---|---|---|
| `PageRing.ToSend` | secure_ivshmem/src/ivshmem_secure.c:90 | an iteration copies a whole page if and only if the size is below one page or at least two; else only size - PAGE bytes |
| `RingFifo.FullTest` | secure_ivshmem/src/ivshmem_secure.c:84-88 | the two-part full test fails exactly when a page is free besides the one kept free |
| `RingFifo.OccupancyUpdate` | secure_ivshmem/src/ivshmem_secure.c:92-94 | writing the page at head changes no occupied page |
| `RingFifo.OccupancyPublish` | secure_ivshmem/src/ivshmem_secure.c:96 | advancing head appends the page at head to the queue, and one page stays free |
| `RingFifo.OccupancyRelease` | secure_ivshmem/src/ivshmem_secure.c:163 | advancing tail removes the oldest page of the queue and nothing else |
| `RingFifo.SenderKeepsInv` | secure_ivshmem/src/ivshmem_secure.c:60-107 | every single access of the send loop keeps the ring invariant: queue in order between tail and head, partial page at head, received bytes |
| `RingFifo.ReceiverKeepsInv` | secure_ivshmem/src/ivshmem_secure.c:123-172 | every single access of the receive loop keeps the same invariant |
| `RingFifo.OccupancyRepack` | secure_ivshmem/src/ivshmem_trusted.c:70-84 | a repack that meets the stated condition leaves the queue in place |
| `RingFifo.StepKeepsInv` | secure_ivshmem/src/ivshmem_secure.c:62-172 | the invariant under any step: either side, the mutex, another channel's writes, and a repack wherever the two sides are that keeps the queue and disturbs neither |
| `RingFifo.FirstInFirstOut` | secure_ivshmem/src/ivshmem_secure.c:84-163 | in every state of every run the page being written is not occupied nor being read, at most num_page - 1 pages are occupied, and the receives hold the published pages' bytes in order |
| `RingRepack.SidesKeptExactly` | secure_ivshmem/src/ivshmem_trusted.c:64-93 | for a repack that keeps the queue: what each side knows from its tests still holds and the page being copied stays at head if and only if the sender is not past its full test, or the ring is not full afterwards and its page stays |
| `RingRepack.FullPublishLoses` | secure_ivshmem/src/ivshmem_secure.c:84-96 | a sender past its test that publishes into a full ring makes it look empty with all its pages unread |
| `RingRepack.RepackInsideFails` | secure_ivshmem/src/ivshmem_trusted.c:64-93 | a run in which a repack that keeps the queue comes between the full test and the publication and two pages are lost |
| `RingStream.ReachedContent` | secure_ivshmem/src/ivshmem_secure.c:90-96 | in every reachable state of every program published page k starts with the k-th chunk the messages are cut into, and the chunks not published are the ones the sender has left |
| `RingStream.ChunkAt` | secure_ivshmem/src/ivshmem_secure.c:62-102 | for sizes outside [PAGE, 2 PAGE) there are ceil(size / PAGE) chunks and chunk t is the t-th page of the buffer |
| `RingStream.MessagesDelivered` | secure_ivshmem/src/ivshmem_secure.c:62-172 | with the sizes sent asked for, in every state of every run, every finished receive up to the first size in [PAGE, 2 PAGE) is its message, and the one in progress a prefix of its message |
| `RingStream.StreamDelivered` | secure_ivshmem/src/ivshmem_secure.c:62-172 | with whole-page sizes, however the receives divide the stream, what is received is a prefix of what is sent, and all of it once the totals are equal |
| `RingPages.PageContents` | secure_ivshmem/src/ivshmem_secure.c:90-96 | in every state of every run without a repack, for every list of sizes, page k is the k-th chunk followed by what its slot held before: initial memory or the page num_page earlier |
| `RingPages.SizeLaw` | secure_ivshmem/src/ivshmem_secure.c:90-163 | in a list of any length, the receive of the first message with a size in [PAGE, 2 PAGE) is its first size - PAGE bytes, then the stale memory, then its second size - PAGE bytes; it is the message if and only if these agree with it |
| `RingSizes.SendLoop` | secure_ivshmem/src/ivshmem_secure.c:60-102 | the loop ends after ceil(size / PAGE) pages, having copied exactly size bytes if and only if PAGE divides size; at one page it never advances |
| `RingSizes.ReadsInside` | secure_ivshmem/src/ivshmem_secure.c:90-102 | the loop stays inside the caller's buffer if and only if the size is one page or a multiple of what an iteration copies |
| `RingSizes.OnePageNeverEnds` | secure_ivshmem/src/ivshmem_secure.c:67-102 | no run gets past a message of exactly one page |
| `RingSizes.DataSizeConserved` | secure_ivshmem/src/ivshmem_secure.c:96-167 | in every state of every run and for every size, data_size is occupied pages times PAGE, less the bytes published and not added, plus the page released and not subtracted, plus the slack of the receives, less what the pages miss, modulo 2^64; with full pages sent and nothing pending it is exact if and only if the receives are whole pages |
| `RingProgress.SomeSideReady` | secure_ivshmem/src/ivshmem_secure.c:62-154 | with at least two pages and enough pages sent, some side is not spinning while a receive is unfinished |
| `RingProgress.SideDescends` | secure_ivshmem/src/ivshmem_secure.c:62-172 | no step raises the rank, a step of a side that can proceed lowers it, and neither side disables the other |
| `RingProgress.FairRunsReceive` | secure_ivshmem/src/ivshmem_secure.c:62-172 | when at least as many pages are sent as asked for, every fair schedule of as many rounds as the rank, with other channels writing, finishes all receives |
| `RingProgress.FairRunsFinish` | secure_ivshmem/src/ivshmem_secure.c:62-172 | with equal page totals every fair schedule that is long enough ends with all sends and receives done and the ring empty |
| `RingProgress.FairRunsDeliver` | secure_ivshmem/src/ivshmem_secure.c:49-175 | such a schedule from an empty ring ends with every receive holding its message |
| `RingProgress.TotalsBalanced` | secure_ivshmem/src/ivshmem_secure.c:62-172 | with whole-page sizes equal byte totals are equal page totals |
| `RingProgress.FairRunsStream` | secure_ivshmem/src/ivshmem_secure.c:49-175 | with whole-page sizes and equal totals, however the receives divide the stream, every fair schedule that is long enough ends with exactly the bytes sent |
| `RingRoundTrip.PageSurplus` | secure_ivshmem/src/ivshmem_secure.c:90-102 | at least as many pages are sent as asked for, and more if some size is in [PAGE, 2 PAGE) |
| `RingRoundTrip.ReceivesExactly` | secure_ivshmem/src/ivshmem_secure.c:49-175 | for a list of messages, if no size is in [PAGE, 2 PAGE) every finished receive is its message in every run and every fair schedule finishes every receive with its message; if one is, neither holds, by a wrong receive, unless more pages come before it than a ring can have |
| `RingRoundTrip.SizesExactly` | secure_ivshmem/src/ivshmem_secure.c:49-175 | for a list of sizes of any length, the same about all messages of those sizes |
| `RingRoundTrip.RoundTripExactly` | secure_ivshmem/src/ivshmem_secure.c:49-175 | from every empty ring, every fair schedule also returns all sends and leaves the ring empty, if and only if no size is in [PAGE, 2 PAGE) |
| `ChannelTable.ControlSection.Init` | secure_ivshmem/src/ivshmem_trusted.c:10-22 | no channels, id counter 1, mutex clear, nothing pending, and the data section cleared |
| `ChannelTable.FindFrom` | secure_ivshmem/src/ivshmem_secure.c:13-25 | the slot found matches and no earlier one does; none found means none matches |
| `ChannelTable.ControlSection.FindChannel` | secure_ivshmem/src/ivshmem_secure.c:13-25 | the slot found has the wanted sender_vm and receiver_vm, and sender_pid unless that is 0; no earlier active slot has them, and none found means none has |
| `ChannelTable.ControlSection.InitChannel` | secure_ivshmem/src/ivshmem_trusted.c:178-204 | the slot becomes an empty four-page channel at the free offset with the next id; nothing else changes |
| `ChannelTable.ControlSection.CreateChannel` | secure_ivshmem/src/ivshmem_trusted.c:133-157 | appends one channel, or returns -1 and changes nothing when the table or the data section is full |
| `ChannelTable.ControlSection.TrustedControl` | secure_ivshmem/src/ivshmem_trusted.c:106-127 | serves the pending request, clears it and the mutex, and reports whether a channel was made |
| `ChannelTable.ControlSection.TrustedRebalancing` | secure_ivshmem/src/ivshmem_trusted.c:30-99 | the whole rebalancing: equal shares for every active channel, the early exit, and the failed allocation that leaves the mutex set |
| `ChannelTable.ControlSection.Relocate` | secure_ivshmem/src/ivshmem_trusted.c:61-93 | the in-place loop over the saved channels gives each its new place and reduced indices, clears the unused slots and ends the free offset after the last region |
| `ChannelTable.ControlSection.FindOrCreateChannel` | secure_ivshmem/src/ivshmem_trusted.c:162-173 | the channel there is, or the one appended, or none if there is no room |
| `ChannelTable.ControlSection.MoveData` | secure_ivshmem/src/ivshmem_secure.c:96-104 | a channel's traffic changes its indices and data_size and nothing else of the section |
| `ChannelTable.ControlSection.Others` | secure_ivshmem/src/ivshmem_trusted.c:30-127 | what others do between two accesses of a requester: rebalances, services and traffic in any order |
| `ChannelTable.ControlSection.RequestChannel` | secure_ivshmem/src/ivshmem_secure.c:27-47 | the section after a request, with others acting between the lookup, the store of the flag, the store of the key and the second lookup, and the lookup in it |
| `ChannelTable.NestedFloor` | secure_ivshmem/src/ivshmem_trusted.c:40-47 | the two nested divisions are one floor division by the product |
| `ChannelTable.TargetBounds` | secure_ivshmem/src/ivshmem_trusted.c:40-47 | n shares fit, one more page each would not, and each has at least 31 pages |
| `TableShape.TargetDecreases` | secure_ivshmem/src/ivshmem_trusted.c:40-50 | up to 32 channels, every added channel strictly shrinks the share |
| `TableShape.CreateShaped` | secure_ivshmem/src/ivshmem_trusted.c:133-157 | creation keeps the shape: a block of equal shares, then initial-size regions |
| `TableShape.RepackShaped` | secure_ivshmem/src/ivshmem_trusted.c:64-93 | a repack makes all active channels the block |
| `TableShape.EarlyExitExact` | secure_ivshmem/src/ivshmem_trusted.c:50-53 | channels[0] has the target size if and only if every active channel has its target size and offset, if and only if no channel was added since the last repack |
| `TableShape.RebalanceIsRepack` | secure_ivshmem/src/ivshmem_trusted.c:50-93 | the rebalancer with its early exit equals an unconditional repack |
| `TableShape.RunKeepsShape` | secure_ivshmem/src/ivshmem_trusted.c:30-204 | every run of flags, stored keys, services whole or in halves, creations (of present keys too), rebalances (failed ones too) and traffic, in any order and overlap, keeps some shape |
| `TableShape.RunsLaidOut` | secure_ivshmem/src/ivshmem_trusted.c:10-204 | after every run from initialisation regions are disjoint, contiguous from 0, whole pages, inside the data section, end at free_start_offset, and hold their indices |
| `TableShape.RoomExactly` | secure_ivshmem/src/ivshmem_trusted.c:135-143 | a creation is refused if and only if there are 32 channels or fewer than four whole pages of the data section are left |
| `TableShape.CreateAfterRebalance` | secure_ivshmem/src/ivshmem_trusted.c:135-143 | after a rebalance, by either path, a table that is not full has room for one more channel |
| `TableShape.RunsRebalance` | secure_ivshmem/src/ivshmem_trusted.c:30-99 | after every run from initialisation the early exit is exact, rebalancing is a repack that reaches the target, shares have at least 31 pages, and there is room after it |
| `TableKeys.RebalanceExtends` | secure_ivshmem/src/ivshmem_trusted.c:66-93 | a rebalance leaves number, ids, keys, data_size and pending request alone |
| `TableKeys.ApplyAdds` | secure_ivshmem/src/ivshmem_trusted.c:106-173 | which steps add a channel, with which key; all others keep their slot, id and key |
| `TableKeys.ApplyLeaves` | secure_ivshmem/src/ivshmem_trusted.c:106-204 | a channel made is empty and has never sent; no operation but a rebalance or a channel's own traffic changes a channel; only requesters' accesses and services change the pending request |
| `TableKeys.RunExtends` | secure_ivshmem/src/ivshmem_trusted.c:30-173 | over every run each slot keeps its id and key |
| `TableKeys.FindIsFirst` | secure_ivshmem/src/ivshmem_secure.c:13-25 | the lookup yields a slot if and only if it is the first active one that matches |
| `TableKeys.FindFields` | secure_ivshmem/src/ivshmem_secure.c:13-25 | the lookup yields the first active slot whose key is the wanted one, for sender_pid 0 whose two VM ids are, and none if and only if there is none |
| `TableKeys.HandleStable` | secure_ivshmem/src/ivshmem_secure.c:13-52 | a channel once looked up is, after any further run, still in that slot with id slot + 1 and its key, and still what the lookup yields |
| `TableKeys.RequestGranted` | secure_ivshmem/src/ivshmem_secure.c:27-47 | a request that finds a channel changes nothing; else it yields the new one if and only if there was room when it was served and it was served after both its stores or the previous candidate matches too; nothing stays pending |
| `TableKeys.RequestAfterRebalance` | secure_ivshmem/src/ivshmem_trusted.c:30-157 | with a rebalance that succeeds before the service, a table that is not full refuses a request if and only if it is served between its two stores and the previous candidate does not match |
| `TableKeys.RequestDistinctExactly` | secure_ivshmem/src/ivshmem_secure.c:36-43 | a request that overlaps no other makes a second channel with one key if and only if it is served between its two stores, with room, and the previous candidate's channel is there |
| `TableKeys.EarlyServiceFails` | secure_ivshmem/src/ivshmem_secure.c:36-43 | the failing run: two requests, the second served between its stores, finds no channel though there is room, and the first key has two |
| `Requesters.SceneIsRun` | secure_ivshmem/src/ivshmem_secure.c:27-47 | a run of any number of requesters with the trusted side is a run of operations on the control section |
| `Requesters.GrantedExactly` | secure_ivshmem/src/ivshmem_secure.c:27-47 | however any number of requests, services and creations overlap, a second lookup finds a channel if and only if one that matches was made since the first |
| `Requesters.AnswerExactly` | secure_ivshmem/src/ivshmem_secure.c:27-47 | in every run a first lookup ends with the first slot of the key, or goes on having seen all channels; a second ends with the first such slot, made since, or with none if and only if none was made |
| `Requesters.AnswerKept` | secure_ivshmem/src/ivshmem_secure.c:27-47 | after any further moves of anybody a finished request still has its answer, and its slot still is the first of its key |
| `Requesters.DistinctExactly` | secure_ivshmem/src/ivshmem_secure.c:27-47 | over every run of overlapping requests, keys stay distinct if and only if no service uses a stored key after a channel with that key was made since the lookup of the requester that stored it (or the memory's first contents, if its channel is there), and no bare creation repeats a key |
| `Requesters.OrderlyDistinct` | secure_ivshmem/src/ivshmem_secure.c:27-47 | requests one after the other, each served after both its stores, keep all keys distinct |
| `Requesters.TwoRequestsRepeat` | secure_ivshmem/src/ivshmem_secure.c:30-43 | two overlapping requests for one key make two channels with it |
| `Requesters.CreationOverlapRepeats` | secure_ivshmem/src/ivshmem_secure.c:30-43 | a request overlapped by a creation of its key makes a second channel with it |
| `Requesters.RequestLost` | secure_ivshmem/src/ivshmem_trusted.c:115-123 | a request whose flag is set before another's is cleared finds nothing though its key was stored and there is room |
| `ControlMutex.RebalanceMutex` | secure_ivshmem/src/ivshmem_trusted.c:36-60 | the rebalancer returns with the mutex set if and only if a channel is away from its target and the allocation fails |
| `ControlMutex.MutexExactly` | secure_ivshmem/src/ivshmem_trusted.c:36-125 | after every run from initialisation the mutex is set if and only if some rebalance failed so, or some service was begun, and since then no service was ended and no rebalance succeeded |
| `ControlMutex.MutexLeftSet` | secure_ivshmem/src/ivshmem_trusted.c:55-60 | one creation and one failing rebalance leave it set |
| `ControlMutex.MutexStalls` | secure_ivshmem/src/ivshmem_secure.c:63-128 | while it is set neither side passes the top of its loop: at most the page in hand is published and released, no call returns, a side at the top does not move |
| `RepackQueue.SameQueueSamePages` | secure_ivshmem/src/ivshmem_secure.c:158-163 | two index settings read the same queue from every memory if and only if they name the same pages in the same order |
| `RepackQueue.RepackMoves` | secure_ivshmem/src/ivshmem_trusted.c:70-75 | a real repack moves every channel but the first: towards 0 after an earlier repack, away from it otherwise |
| `RepackQueue.RepackKeepsQueueExactly` | secure_ivshmem/src/ivshmem_trusted.c:64-84 | a real repack keeps a channel's queue if and only if it is empty, or the channel is the first and its queue does not wrap and fits the new page count |
| `RepackQueue.RunsKeepQueuesExactly` | secure_ivshmem/src/ivshmem_trusted.c:30-99 | the same after every run from initialisation, for every rebalance that is not already at its target |
| `RepackQueue.RunsReduceIndices` | secure_ivshmem/src/ivshmem_trusted.c:50-93 | every rebalance after every run, for every channel, moved or not: head and tail become the indices below the new page count that differ by a multiple of it, with what that means for the number of pages queued; without a repack nothing in a channel changes |
| `RepackQueue.RingReduced` | secure_ivshmem/src/ivshmem_trusted.c:81-83 | the same of the ring by itself |
| `RepackQueue.OtherRegionsUntouched` | secure_ivshmem/src/ivshmem_secure.c:92-94 | a write in one channel's region changes no page of another's |
| `SharedSection.SystemIsRun` | secure_ivshmem/src/ivshmem_secure.c:96-104 | a run of the whole system is, for the control section, a run of its operations, each side's step being traffic of its channel |
| `SharedSection.MoveSeen` | secure_ivshmem/src/ivshmem_secure.c:49-175 | a move of the whole system (any side of any channel, any control operation, at any time) is, for each channel, a few steps of its own ring, the other channels appearing only as writes elsewhere |
| `SharedSection.SystemDelivers` | secure_ivshmem/src/ivshmem_secure.c:49-175 | in every run from initialisation of all sides of all channels, with creations, requests and rebalances that keep queues and sides, wherever the sides are, every channel's state is reached by a run of its own ring and delivers its messages, and the regions stay laid out |
| `SystemProgress.SystemFinishes` | secure_ivshmem/src/ivshmem_secure.c:49-175 | after any such run, with the mutex clear and the trusted side at rest, every schedule of all sides of all channels that is fair to a channel for a number of rounds its program fixes finishes a balanced program with the ring empty and, for matching sizes, every message delivered |
| `SystemProgress.KeysMeet` | secure_ivshmem/src/ivshmem_secure.c:13-115 | a sender's key leads to its slot for ever; a receiver's key leads there, with distinct keys and a sender_pid of its own, if and only if it is the same key, and with sender_pid 0 if and only if both VM ids are the same and no earlier slot has them |
| `LockChannel.StepKeepsExclusion` | secure_ivshmem/src/ivshmem_lock_base.c:63-137 | every single access keeps the critical sections disjoint, ref_count 0 or 1, and the mutex set exactly while a side is inside |
| `LockChannel.StepKeepsInv` | secure_ivshmem/src/ivshmem_lock_base.c:56-138 | every single access keeps exclusion, the two positions at most one chunk apart, the region's contents and the buffers |
| `LockChannel.LockSafe` | secure_ivshmem/src/ivshmem_lock_base.c:50-140 | under every interleaving the critical sections are disjoint, ref_count is 0 or 1, and received messages are the messages sent, for every size |
| `LockProgress.SomeSideReady` | secure_ivshmem/src/ivshmem_lock_base.c:56-138 | every reachable unfinished state has a side that is not spinning |
| `LockProgress.SideDescends` | secure_ivshmem/src/ivshmem_lock_base.c:56-138 | no step raises the rank, a step of a side that can proceed lowers it, and neither side disables the other |
| `LockProgress.LockDelivers` | secure_ivshmem/src/ivshmem_lock_base.c:26-140 | every fair schedule that is long enough ends with the mutex clear, ref_count 0 and every message delivered |
| `LockKeys.ForeignReceivesNothing` | secure_ivshmem/src/ivshmem_lock_base.c:115-118 | if a field the receiver tests differs from the sender's and from what the section held at first, it never gets past its tests and receives no byte, in any run |
| `LockKeys.DeliversExactly` | secure_ivshmem/src/ivshmem_lock_base.c:26-140 | with the section as initialised and VM ids other than 0, all fair schedules that are long enough deliver every message if and only if the receiver's key accepts the sender's or there is nothing to deliver |
| `LockKeys.StaleKeyAdmits` | secure_ivshmem/src/ivshmem_lock_base.c:82-118 | a run in which a sender_vm left in the section lets in a message of another VM |
| `PeerTable.SearchFrom` | examples/ivshmem_client/ivshmem-client.c:394-399 | the peer found has the id; none found means none has it |
| `PeerTable.HandleValid` | examples/ivshmem_client/ivshmem-client.c:91-142 | a message keeps ids distinct and never the own id, and counts within 64 |
| `PeerTable.HandleRefines` | examples/ivshmem_client/ivshmem-client.c:91-142 | a message changes the list and local entry as it changes the map from id to descriptors |
| `PeerTable.HandleReturns` | examples/ivshmem_client/ivshmem-client.c:91-142 | a message returns 0 if it changes the map from id to descriptors and -1 if not |
| `PeerTable.HandleOrder` | examples/ivshmem_client/ivshmem-client.c:114-128 | the list keeps its order: a message appends a peer at the end, takes one out, or leaves it |
| `PeerTable.RunRefines` | examples/ivshmem_client/ivshmem-client.c:91-142 | after every sequence of messages list and local entry are the map the messages build, with distinct ids and at most 64 descriptors each |
| `PeerTable.HandleBalanced` | examples/ivshmem_client/ivshmem-client.c:79-142 | a message keeps the ledger of descriptors taken over: stored is held plus closed, as multisets |
| `PeerTable.RunBalanced` | examples/ivshmem_client/ivshmem-client.c:79-142 | over every sequence of messages each descriptor taken over is held once or was closed once |
| `PeerTable.HeldOrClosedExactly` | examples/ivshmem_client/ivshmem-client.c:79-142 | over every sequence of messages all descriptors received are held, closed or dropped; none is dropped if and only if no message meets a full entry or a failed allocation |
| `PeerTable.OwnVectorsDropped` | examples/ivshmem_client/ivshmem-client.c:134-137 | of any number of vectors for the own id exactly those past the 64th are dropped |
| `PeerTable.CloseReleasesAll` | examples/ivshmem_client/ivshmem-client.c:242-268 | after a close the client is idle without an id, nothing is held and every stored descriptor was closed exactly once |
| `PeerTable.SessionClosesAll` | examples/ivshmem_client/ivshmem-client.c:79-268 | after a run of messages and a close, everything received was closed exactly once except what was dropped |
| `PeerTable.ConnectionBalanced` | examples/ivshmem_client/ivshmem-client.c:177-239 | a connection succeeds exactly on the three greetings expected, field by field, and then holds socket and memory; one that fails anywhere holds nothing; which id the client then has; each descriptor taken over is held or closed once |
| `PeerTable.ConnectionTakesExactly` | examples/ivshmem_client/ivshmem-client.c:205-237 | a connection takes over every descriptor it reads if and only if neither of the first two messages brings one |
| `PeerTable.ReconnectExactly` | examples/ivshmem_client/ivshmem-client.c:177-239 | connecting a client that may be connected keeps the ledger balanced if and only if it has no socket open and, on success, no shared memory |
| `PeerTable.Client.Init` | examples/ivshmem_client/ivshmem-client.c:145-174 | a new client is idle, with an empty ledger |
| `PeerTable.Client.Connect` | examples/ivshmem_client/ivshmem-client.c:177-239 | the connection with all its error paths, of any client, as the specification the ledger is proved of |
| `PeerTable.Client.SearchPeer` | examples/ivshmem_client/ivshmem-client.c:387-400 | the search loop finds the local entry, the first peer with the id, or nothing |
| `PeerTable.Client.FreePeer` | examples/ivshmem_client/ivshmem-client.c:79-88 | removes that peer and closes exactly its descriptors, in order |
| `PeerTable.Client.HandleServerMsg` | examples/ivshmem_client/ivshmem-client.c:91-142 | the new table and return value are those of the specification the refinement and the ledger are proved of |
| `PeerTable.Client.ClosePeers` | examples/ivshmem_client/ivshmem-client.c:248-250 | frees all peers, closing all their descriptors |
| `PeerTable.Client.CloseLocal` | examples/ivshmem_client/ivshmem-client.c:261-266 | closes the local descriptors in use, and those only |
| `PeerTable.Client.CloseClient` | examples/ivshmem_client/ivshmem-client.c:242-268 | the whole close, as the specification the ledger is proved of |
| `MmapHook.AcceptedMapsOneSection` | kernel_module/ivshmem_uio_hook.c:290-314 | on a file whose name starts with that of the device a request is accepted if and only if it stays in one section and within the limit; it then maps exactly its pages one to one inside that section if no remap fails |
| `MmapHook.OtherFilesPass` | kernel_module/ivshmem_uio_hook.c:278-283 | a call on any other file, or one without a dentry, is never rejected, and maps the pages it asks for |
| `MmapHook.MapperResultMeans` | dev_shm/myshm.c:62-73 | what each result of the mapper says about the pages mapped |
| `MmapHook.Hook.MmapGuard` | kernel_module/ivshmem_uio_hook.c:391-406 | releases the lock exactly when it rejects |
| `MmapHook.Hook.HookFunc` | kernel_module/ivshmem_uio_hook.c:240-320 | where the call goes on: into the mapper when re-entered, else to the stub or the wrapper as the guards say; lock free afterwards |
| `MmapHook.Hook.MyshmMmap` | dev_shm/myshm.c:54-74 | the mapping loop's result and exactly the pages it mapped, also when it is refused or a remap fails |
| `MmapHook.Hook.CallMmap` | kernel_module/ivshmem_uio_hook.c:252-346 | a call through the hook ends free and unlocked, enters the hook once if rejected and twice if accepted, and runs the mapper never or once |
| `MmapHook.Hook.OriginMmap` | kernel_module/ivshmem_uio_hook.c:322-337 | runs the mapper once through the re-entered hook, unlocks, and returns 0 |
| `MmapHook.Hook.DummyMmap` | kernel_module/ivshmem_uio_hook.c:339-346 | unlocks and returns -EINVAL |
| `MmapHook.Hook.Serve` | kernel_module/ivshmem_uio_hook.c:252-346 | over every sequence of calls the hook is free between calls, the mapper ran once for each accepted call only, and the mapped pages are those of the accepted calls |
| `MmapHook.WrapperHidesFailure` | kernel_module/ivshmem_uio_hook.c:322-337 | for an accepted call the returned 0 means all pages are mapped if and only if there are none or the range ends inside the device and no remap fails; on the hooked device, if and only if no remap fails |
| `MmapHook.NothingMapped` | kernel_module/ivshmem_uio_hook.c:322-337 | an accepted call on the hooked device that returns 0 with nothing mapped |

## Left out

- RingFifo.SenderKeepsInv: the two loops are steps on a state value, not methods, since the claim is about their interleaving; `RingSizes.SendLoop` has the send loop by itself.
- RingFifo.StepKeepsInv: a repack that moves the page a sender is copying into, or leaves the ring full behind its full test, is excluded, since delivery is lost then; the separate stores of a repack, and a repack between the load and the store of an index, are not steps of their own. `ControlMutex.MutexStalls` bounds how long a side stays inside an iteration.
- RingSizes.SendLoop: takes the number of turns as a parameter, because at one page the loop does not end.
- RingRoundTrip.ReceivesExactly: leaves open a list with 2^31 pages or more before its first size in [PAGE, 2 PAGE), because the stale memory is then always an earlier page of the list, which can happen to agree with the message; `RingRoundTrip.SizesExactly` has no such exception.
- ChannelTable.ControlSection.InitChannel: `last_sent_at` is the 0 stored last, not the time stored before it; `last_channel_id` is unbounded (it stays below 34).
- ChannelTable.ControlSection.RequestChannel: no other request or creation, and services as whole calls; `Requesters` has overlapping requests and services in two steps.
- PeerTable.Client.FreePeer: peers are records in a sequence, not nodes of a linked list, so pointer aliasing and the release of the nodes are not modelled.
- PeerTable.Client.Connect: a short read that leaves part of an id in the client.
- MmapHook.Hook.CallMmap: concurrent mmap calls, which would all pass while `is_locked` is set; null arguments; ranges that are not whole pages or overflow.
- The chunk mode of the channels (`IVSHMEM_TYPE == 1`), whose handshake is a simpler form of the lock-based channel's.
- Several senders or receivers on one channel, and weak memory: the code decides no delivery guarantee for them.
- Inactivity killing and the grow and shrink multipliers announced in `secure_ivshmem/include/ivshmem_trusted.h`, which the code does not implement.
- The return of -1 by send and receive without a channel, before their loops; which channel they get is `SystemProgress.KeysMeet` and `Requesters.AnswerExactly`.
- Device opening and mapping, AES-GCM framing, the example programs, socket reads, notifications, kernel module registration: plumbing around the modelled logic.
