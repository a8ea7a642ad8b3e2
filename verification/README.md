# Frame ownership in an AF_XDP crate, verified

This project models how frames of one memory area travel through AF_XDP sockets, and proves what every run of
the crate's operations and of its example programs keeps. Every frame circulates:

    free buffers -> fill ring -> kernel -> Rx ring -> pending deque -> Tx ring -> kernel -> completion ring -> free buffers

The crate owns four loops on this way (`fill`, `try_recv`, `try_send`, `service`); the examples and the veth test
compose them with counters, deficits, thresholds and batches that are right only because of invariants over
whole runs. The kernel runs between every two actions of the program.

Check it with `dafny verify dfyconfig.toml` (Dafny 4.11).

## How the model is built

| files | what they hold |
|---|---|
| `Bits`, `Rings` | u32 arithmetic and masks; the shared rings with wrapping cursors, as classes over a slot array. Ghost histories say what was really published and consumed, and `Valid` ties the cursors and slots to them |
| `Frames`, `Memory`, `MmapArea`, `BufPool`, `Isolation` | addresses, buffers, Vec and ArrayDeque; the bytes of an area as one flat string; the area's layout; the shared pool; which bytes each buffer covers, for every driver |
| `LinkState`, `LinkFlow`, `Kernel` | one link as a value: program side, kernel side, the kernel's exact moves with the bytes they read and write, and the accounts every move keeps; the class `Link` holding the four rings |
| `Umem`, `Socket` | the four operations, with any kernel activity between reserve, every slot and submit (or peek, every slot and release) |
| `Forwarding`, `ForwardFacts`, `ForwardDrain`, `Forwarder`, `TwoLink`, `CrewWork`, `Multicore` | l2fwd-2link and l2fwd-2link-multicore: invariant, its consequences, progress, the loop class, start-up, what the turns of many workers do, and the workers interleaving them |
| `OneLink`, `MacSwap`, `MacParity`, `OneLinkLoop`, `OneLinkRun` | l2fwd-1link: the same for one link, the MAC swap on bytes, how often each packet is swapped, and the loop as a run |
| `OneLinkDrain`, `DrainsExactly`, `OneLinkFinish` | when l2fwd-1link drains: progress, the exact condition on buffers and batch size, and the program from its start to its end |
| `OneLinkMoves`, `SwappedTwice` | runs built move by move, and one in which a packet leaves unswapped |
| `InFlight`, `LateSwaps`, `LateReads` | frames in flight are never written, so a device may read them at any time |
| `Veth`, `VethWorker`, `BiDirHash`, `Integrity`, `VethTest` | the veth test: deficits, the worker loop, the traffic generator and checks, end-to-end integrity of both ports, and both workers together |

Operations are methods proved against value-level specifications; what runs keep is proved as lemmas about those
values. An operation's contract names everything the kernel did during it, move by move with the bytes of the area
(`Ran`, `Trace`), and says what the operation itself changed, at one point after those moves. Panics of the source
(`there should be space`, `tried to get buffer from empty pool`, incomplete fills, `shouldn't happen`, `unwrap`s) are
assertions or results that are proved unreachable or decided exactly.

Programs write only through the slices of their buffers, into one flat array per area. That a write does not reach
another frame is never built in: it follows from the accounts of frames and the layout of chunks.

The byte-level machines of `Integrity` and `MacParity` are followed by the programs themselves: `VethTest` and
`OneLinkRun` carry the run so far and prove that every part of a loop continues it.

## Assumptions about the environment

The ring calls (`_xsk_ring_prod__reserve` and so on) come from libbpf and are modelled from its public header
`xsk.h`: reserve grants all or nothing and refreshes the cached consumer only when short; peek grants what is
available up to the limit and refreshes only when nothing is cached; cursors are free-running u32 values, and
a slot is `cursor & (size - 1)`. The kernel follows the Linux document Documentation/networking/af_xdp.rst: a filled
address is masked to its chunk (section "UMEM Fill Ring") and comes back on Rx at chunk base + 256; a submitted Tx address comes back
unchanged on the completion ring; a Tx entry is taken only if the completion ring will have room for it; a fill slot
is freed no later than its frame becomes visible on Rx. Received packets and completions may come in any order. On a
link of the examples anything may arrive; on an end of the veth test only packets of the other end's wire, in order,
any of them lost. A wire may fall silent at any time. The packet on the wire is what the frame holds when the Tx entry
is taken; by `LateSwaps` and `LateReads` a device that reads the frame later, up to its completion, finds the same.
Chunks are longer than 256 bytes and their data part fits the u16 length of a buffer; l2fwd-1link needs 268 bytes or more.
`idx += 1` wraps, as in a release build.

## Model

| member | source | states |
|---|---|---|
| `Bits.IsPowOfTwoExact` | src/util.rs:1-6 | `is_pow_of_two` accepts a u32 exactly when it is 2^k for some k < 32 |
| `Bits.SlotOfCursor` | src/umem.rs:242 | for an accepted ring size, masking a wrapped cursor gives the true position modulo the size, however far the ring has run |
| `Bits.BatchSlotsInjective` | src/socket.rs:448-458 | within one batch, wrapped and masked cursors name different slots, each the slot of its true position |
| `Bits.WrapSubIsDistance` | src/umem.rs:234 | the wrapped difference of two cursors is their true distance while it is below 2^32 |
| `Rings.ProdRing.Reserve` | src/umem.rs:233-235 | all or nothing; all exactly when the kernel has freed enough; the index returned is the next unpublished position |
| `Rings.ProdRing.WriteSlot` | src/umem.rs:242-245 | only a granted, not yet written slot may be written, and no unconsumed entry is overwritten |
| `Rings.ProdRing.Submit` | src/umem.rs:253-257 | everything granted must have been written; the published history gains exactly that, in order |
| `Rings.ProdRing.KernelTake` | src/umem.rs:233-257 | whatever slot the consumer reads was written and is the next entry of the history |
| `Rings.ConsRing.Peek` | src/socket.rs:374-376 | grants exactly what the ring shows, up to the limit; a ring that still shows something is not looked at again, otherwise everything published shows |
| `Rings.ConsRing.ReadSlot` | src/socket.rs:389-391 | the slot read is the next entry published |
| `Rings.ConsRing.Release` | src/socket.rs:412-414 | every granted entry must have been read before its slot goes back |
| `LinkState.KernelMoveKeeps` | src/umem.rs:219-260 | each kernel move keeps the accounts of a link (what left a ring is held or was published, once) and only advances cursors |
| `LinkState.TookFillKeeps` | src/umem.rs:237-251 | taking a filled address and masking it to its chunk keeps the accounts |
| `LinkState.DeliveredKeeps` | src/socket.rs:384-400 | delivering any held frame with a packet that fits keeps the accounts |
| `LinkState.TookTxKeeps` | src/socket.rs:448-458 | taking a Tx entry while keeping room for its completion keeps the accounts |
| `LinkState.FinishedKeeps` | src/umem.rs:184-188 | completing any frame in flight keeps the accounts |
| `LinkState.FellSilentKeeps` | src/socket.rs:374-379 | the wire may fall silent at any time, keeping the accounts; then nothing more arrives |
| `LinkState.TraceKeeps` | src/umem.rs:219-260 | any number of kernel moves keep the accounts, whatever they write into the area |
| `LinkState.NextSeen` | src/umem.rs:233-257 | what the kernel does in the middle of an operation it could have done before it: the operation takes effect at submit or release |
| `Kernel.Link.KernelRun` | src/umem.rs:233-257 | any number of kernel moves, each recorded with the area's bytes; besides them nothing changes |
| `Umem.Fill` | src/umem.rs:219-260 | hands over none or all of the batch, all whenever the ring has room; the last buffers, last one first; besides that exactly the recorded kernel moves happen, all before it takes effect; only granted slots are written, all before publication; the empty-pool `todo!` is unreachable |
| `Frames.FillOrderIsSuffix` | src/umem.rs:237-251 | `fill` hands over exactly the suffix it takes from the Vec |
| `Umem.Service` | src/umem.rs:163-208 | appends exactly as many completed addresses as the ring shows, up to batch and free capacity, in order; each slot is read before release; besides that exactly the recorded kernel moves happen |
| `Socket.TryRecv` | src/socket.rs:363-417 | appends exactly as many packets as the ring shows, up to batch and room in the deque, in order; the "there should be space" panic is unreachable; besides that exactly the recorded kernel moves happen |
| `Socket.TrySend` | src/socket.rs:429-469 | submits none or all of a batch from the front of the deque, in order, all whenever the ring has room; besides that exactly the recorded kernel moves happen |
| `Frames.ServicedBuffer` | src/umem.rs:184-195 | a serviced buffer has length 0 and covers the data part of its chunk |
| `Frames.ReceivedBuffer` | src/socket.rs:384-400 | a received buffer has the address and length of its descriptor and covers the data part of its chunk |
| `Frames.SentDescriptor` | src/socket.rs:448-458 | a submitted descriptor has the address and length of its buffer |
| `Frames.FilledAddress` | src/umem.rs:237-251 | the i-th address filled is that of the i-th buffer from the back |
| `LinkFlow.RxBalance` | src/umem.rs:219-260 | as bags of addresses, what was filled is what was received plus what is in fill ring, kernel and Rx ring |
| `LinkFlow.TxBalance` | src/socket.rs:429-469 | as bags of addresses, what was sent is what was serviced plus what is in Tx ring, kernel and completion ring |
| `LinkFlow.KernelKeepsFrames` | src/umem.rs:163-260 | the kernel alone never changes which frames a link holds on either side |
| `LinkFlow.AfterFill` | src/umem.rs:219-260 | a fill adds exactly the handed-over frames to the Rx side |
| `LinkFlow.AfterReceive` | src/socket.rs:363-417 | a receive takes exactly the received frames out of the Rx side, each the data address of its chunk |
| `LinkFlow.AfterSend` | src/socket.rs:429-469 | a send adds exactly the sent frames to the Tx side |
| `LinkFlow.AfterService` | src/umem.rs:163-208 | a service takes exactly the completed frames out of the Tx side, each the data address of its chunk |
| `MmapArea.New` | src/mmap_area.rs:63-108 | fails exactly when the mapping fails; otherwise buffer i is the data part of chunk i, empty, in a Vec with room for exactly all, over an area of `buf_num * buf_len` bytes |
| `MmapArea.FramesDistinct` | src/mmap_area.rs:85-105 | the addresses are exactly `i * buf_len + 256` for `i < buf_num`, each once |
| `MmapArea.SlicesApart` | src/mmap_area.rs:96-101 | buffers with different addresses share no byte |
| `MmapArea.InsideArea` | src/mmap_area.rs:96-101 | a buffer for a frame of the area ends inside the area |
| `MmapArea.FrameInside` | src/mmap_area.rs:85-105 | a frame of the area is named once and its data part lies in the area |
| `Memory.FramesApart` | src/mmap_area.rs:93-101 | writing into the data part of one chunk of the flat area is not seen in another |
| `MmapArea.NewPool` | examples/l2fwd-2link-multicore.rs:537-554 | mapping an area and putting all its buffers into a pool leaves the pool with exactly the area's frames |
| `Isolation.ShareIsolated` | src/socket.rs:382-400 | whoever holds a share of the area: any two of its slices cover different bytes, none covers a byte of a frame somebody else holds, and all stay inside the area, in their own chunks and past the reserved bytes |
| `Isolation.NetIsolated` | src/umem.rs:179-198 | so in every state of the two-link loop, for pool and deques against each other and against both links |
| `Isolation.OneIsolated` | examples/l2fwd-1link.rs:24-37 | so in every state of the single-link loop, and for its deque against pool and link |
| `Isolation.PortIsolated` | tests/common.rs:200-312 | so in every state of a worker of the veth test |
| `BufPool.BufPoolVec.Get` | src/buf_pool_vec.rs:35-42 | moves the last `min(num, len)` buffers of the pool behind what the caller holds, order kept |
| `BufPool.BufPoolVec.Put` | src/buf_pool_vec.rs:44-51 | moves the last `min(num, len)` buffers of the caller's Vec behind what the pool holds, order kept |
| `BufPool.BufPoolVec.PutBuf` | src/buf_pool_vec.rs:53-57 | appends one buffer |
| `BufPool.PutThenGet` | src/buf_pool_vec.rs:35-51 | `put` and then `get` of the returned count restores both sequences exactly |
| `BufPool.GetThenPut` | src/buf_pool_vec.rs:35-51 | and so does `get` and then `put` |
| `BufPool.PoolConserves` | src/buf_pool_vec.rs:35-57 | no sequence of operations loses or duplicates a buffer |
| `Forwarding.KernelTurnKeeps` | examples/l2fwd-2link.rs:227-295 | kernel moves on both links keep the forwarding invariant (conservation, well-formed buffers, order, exact deficits and counters) |
| `Forwarding.ServiceKeeps` | examples/l2fwd-2link.rs:240-246 | so does servicing |
| `Forwarding.ReceiveKeeps` | examples/l2fwd-2link.rs:251-269 | so does receiving |
| `Forwarding.ForwardKeeps` | examples/l2fwd-2link.rs:274-278 | so does forwarding to the other link; what was received on one link stays equal to what was submitted on the other followed by what is pending |
| `Forwarding.FillKeeps` | examples/l2fwd-2link.rs:283-292 | so does filling |
| `Forwarding.EveryRunSound` | examples/l2fwd-2link.rs:227-295 | hence every state of every run, with the moves in any order |
| `ForwardFacts.EveryFrameOnce` | examples/l2fwd-2link.rs:227-295 | every owned frame is in exactly one of fifteen places (pool, two deques, six stages of each link), once, and no other address is anywhere |
| `ForwardFacts.FrameCounts` | examples/l2fwd-2link.rs:227-295 | frames in fill ring, kernel and Rx ring plus the deficit are the initial fill; all places together hold all frames |
| `ForwardFacts.Counters` | examples/l2fwd-2link.rs:240-292 | received = sent on the other link + pending; sent = serviced + on the Tx path; filled + deficit = received; pool = frames - initial fills - filled + serviced |
| `ForwardFacts.FillFindsRoom` | examples/l2fwd-2link.rs:283-292 | a fill of the whole deficit always fits the fill ring |
| `ForwardFacts.RxFindsRoom` | examples/l2fwd-2link.rs:227-295 | the kernel never finds the Rx ring full while it holds a frame |
| `ForwardFacts.VecHasRoom` | src/umem.rs:170 | the Vec has room for every completion there is, so its capacity never withholds one and it never grows |
| `ForwardFacts.StartsSound` | examples/l2fwd-2link.rs:165-225 | after two complete initial fills the invariant holds |
| `Forwarder.Loop.ServicePart` | examples/l2fwd-2link.rs:240-246 | after any kernel activity, a service of exactly what the ring shows, at most 64; the capacity of the Vec never limits it |
| `Forwarder.Loop.ReceivePart` | examples/l2fwd-2link.rs:251-269 | likewise a receive of exactly what the ring shows, at most 64 and what the deque has room for, raising counter and deficit alike |
| `Forwarder.Loop.ForwardPart` | examples/l2fwd-2link.rs:274-278 | likewise a forward of none or all of the first 64 of this link's deque to the other link's Tx ring |
| `Forwarder.Loop.FillPart` | examples/l2fwd-2link.rs:283-292 | likewise a fill: nothing below a deficit of 64, else exactly `min(deficit, pool)` |
| `Forwarder.Loop.Iteration` | examples/l2fwd-2link.rs:227-295 | one pass is service, receive, forward to the other link, fill, with the kernels anywhere between; a due fill is exactly `min(deficit, pool)`; on a silent wire the load never grows, and stays only if there was nothing to do |
| `Forwarder.Loop.Run` | examples/l2fwd-2link.rs:227-295 | any number of passes, alternating links, with the invariant at every loop head |
| `Forwarder.Loop.Part` | examples/l2fwd-2link.rs:227-295 | one of the four parts of a pass alone, for schedules that interleave workers |
| `Forwarder.Loop.Silence` | examples/l2fwd-2link.rs:227-295 | both wires can fall silent in any state, keeping the invariant |
| `Forwarder.Loop.Drain` | examples/l2fwd-2link.rs:227-295 | on a silent wire with kernels that keep transmitting, after at most as many rounds as the starting load: no packet pending or on an Rx ring, no frame on a Tx path, deficits below the threshold |
| `ForwardDrain.StuckIsQuiescent` | examples/l2fwd-2link.rs:101 | if neither pass nor kernel finds anything to do then everything is done; rests on twice the initial fill not exceeding the pool |
| `ForwardDrain.ForwardDownhill` | examples/l2fwd-2link.rs:274-278 | forwarding lowers the load unless it moved nothing |
| `ForwardDrain.KernelTurnDownhill` | examples/l2fwd-2link.rs:227-295 | on a silent wire kernel moves never raise the load, and leave every tally alone if they keep it |
| `ForwardDrain.ServiceDownhill` | examples/l2fwd-2link.rs:240-246 | servicing lowers the load unless it moved nothing |
| `ForwardDrain.ReceiveDownhill` | examples/l2fwd-2link.rs:251-269 | receiving lowers the load unless it moved nothing, although it raises the deficit |
| `ForwardDrain.FillDownhill` | examples/l2fwd-2link.rs:283-292 | filling lowers the load unless it moved nothing |
| `ForwardDrain.NoLoadIsQuiescent` | examples/l2fwd-2link.rs:227-295 | a load of zero means nothing is left to do |
| `ForwardDrain.QuietFed` | examples/l2fwd-2link.rs:283-292 | when nothing is left to do, a link has frames on its way in exactly if the initial fill reached the threshold or it has received fewer packets than frames were ever filled |
| `ForwardDrain.NeverRefilled` | examples/l2fwd-2link.rs:283-292 | with an initial fill below the threshold (fewer than 128 buffers) no run ever fills again |
| `ForwardDrain.LoadBounded` | examples/l2fwd-2link.rs:101 | the load is never more than nine times the frames owned |
| `Forwarder.Forward` | examples/l2fwd-2link.rs:24-37 | submits none or a whole batch from the front of the deque; none only if the deque is empty or the ring too full |
| `Forwarder.InitialFills` | examples/l2fwd-2link.rs:165-197 | both fills are complete exactly when the pool holds twice the number, and then took its last buffers, last one first; no frame is lost either way |
| `Forwarder.StartLoop` | examples/l2fwd-2link.rs:165-225 | the loop starts exactly if the pool holds both fills, at the first link with nothing pending or owed, and then owns exactly the pool's frames |
| `TwoLink.Open` | src/umem.rs:78-82 | a ring size that is not a power of two is refused, and a link opens exactly if all four sizes are and the foreign calls succeed |
| `TwoLink.Start` | examples/l2fwd-2link.rs:98-225 | from the area to the loop no panic is reached, for any number of buffers: rings of 2048, both links filled with half of the buffers or a ring of them, and the loop owns exactly the area's frames |
| `TwoLink.Execute` | examples/l2fwd-2link.rs:98-295 | after any number of passes from there, alternating links, every frame of the area is in exactly one place and nothing else is anywhere |
| `TwoLink.ExecuteAndDrain` | examples/l2fwd-2link.rs:98-295 | from the start through any number of passes, once the wires fall silent and the kernels go on transmitting, nine rounds per buffer leave nothing pending, nothing on a Tx path and no fill due; a link can then still receive exactly if there are at least 128 buffers or it has received fewer packets than frames were ever filled |
| `Multicore.Worker.Load` | examples/l2fwd-2link-multicore.rs:204-214 | takes the last `min(8192, len)` buffers of the shared pool |
| `Multicore.Worker.Begin` | examples/l2fwd-2link-multicore.rs:216-248 | the loop starts exactly if the worker got at least two rings of buffers, else it panics; it starts at the first link with both links filled from the back; its frames are the same either way |
| `Multicore.Worker.Proceed` | examples/l2fwd-2link-multicore.rs:312-369 | the next of the four parts of a pass on the link whose turn it is, and after the fourth the other link; the worker's frames stay its own |
| `Multicore.Crew.Turn` | examples/l2fwd-2link-multicore.rs:189-373 | the worker named does its next action to its full amount (load, begin or panic, or the part of the pass that is next), nobody else moves, and pool and workers together hold what they held |
| `Multicore.Crew.Run` | examples/l2fwd-2link-multicore.rs:189-373 | so for any number of workers interleaving their actions in any order, one action for every entry of the schedule |
| `CrewWork.PassesAlternate` | examples/l2fwd-2link-multicore.rs:307-373 | whatever the schedule, after `c` turns a worker waits (0), has its buffers (1), has panicked, or is at part `(c - 2) % 4` of a pass on link `(c - 2) / 4 % 2` |
| `Multicore.Crew.Isolated` | examples/l2fwd-2link-multicore.rs:551-557 | frames of different workers and of the pool are disjoint and together are the area |
| `Multicore.Crew.ShareOfWorker` | examples/l2fwd-2link-multicore.rs:276-370 | no buffer of a worker covers a byte of anything in its rings, in the pool or with another worker |
| `Multicore.Execute` | examples/l2fwd-2link-multicore.rs:537-654 | from the pool set-up, with any number of workers built on it and any schedule: every turn was such an action and every worker is where its turns brought it, every frame is in exactly one hand, and every worker's slices are apart from everything the others hold |
| `OneLink.OneForwardKeeps` | examples/l2fwd-1link.rs:268-272 | sending back on the same link keeps conservation, order and exact deficits |
| `OneLink.OneTurnKeeps` | examples/l2fwd-1link.rs:207-287 | kernel moves keep the single-link invariant |
| `OneLink.OneServiceKeeps` | examples/l2fwd-1link.rs:230-236 | so does servicing |
| `OneLink.OneReceiveKeeps` | examples/l2fwd-1link.rs:241-263 | so does receiving |
| `OneLink.OneFillKeeps` | examples/l2fwd-1link.rs:277-286 | so does filling |
| `OneLink.OneFacts` | examples/l2fwd-1link.rs:227-286 | the deficit is what is missing from the Rx path; a fill of all of it fits; the Vec has room for every completion |
| `MacSwap.SwapSlice` | examples/l2fwd-1link.rs:27-33 | the copies through the 12-byte temporary exchange the first twelve bytes of one slice of the area |
| `MacSwap.SwapMacs` | examples/l2fwd-1link.rs:24-37 | on the flat area, the slices of the deque are swapped in order |
| `MacSwap.SwapOutside` | examples/l2fwd-1link.rs:27-33 | only the first twelve bytes of the named slices change |
| `MacSwap.SwapSeen` | examples/l2fwd-1link.rs:24-37 | any frame reads as if swapped as often as the deque names it, whatever happens to other frames |
| `MacSwap.SwapMacAt` | examples/l2fwd-1link.rs:30-33 | where every byte comes from; bytes past 12 stay |
| `MacSwap.SwapMacTwice` | examples/l2fwd-1link.rs:30-33 | swapping is an involution |
| `MacSwap.SwapParity` | examples/l2fwd-1link.rs:24-37 | only the parity of the number of swaps matters |
| `MacSwap.LooksSwapped` | examples/l2fwd-1link.rs:24-37 | a packet looks swapped once exactly if it was swapped an odd number of times or its addresses are equal |
| `MacSwap.LeftoverSwappedBack` | examples/l2fwd-1link.rs:241-248 | a second swap of the deque undoes the first in every frame still in it |
| `MacParity.EveryRunSwaps` | examples/l2fwd-1link.rs:227-286 | in every run the r-th packet transmitted is the r-th received, its addresses swapped once per non-empty receive it sat through in the deque; all were swapped exactly once if and only if every non-empty receive so far found the deque empty |
| `MacParity.LandedTracked` | examples/l2fwd-1link.rs:241-272 | the kernel's write of a new packet touches no packet under way |
| `MacParity.DepartedTracked` | examples/l2fwd-1link.rs:268-272 | what the kernel reads for transmission is the next packet in order, with the swaps counted for it |
| `SwappedTwice.ARunThatBreaksIt` | examples/l2fwd-1link.rs:227-286 | "swapped exactly once" fails without the condition: three passes of the loop from the start (8192 buffers of 2048 bytes, batch size 2048) in which the ring refuses a burst, after which the second packet leaves as it came |
| `OneLinkMoves.StartsFresh` | examples/l2fwd-1link.rs:110-199 | for every area and batch size, the first loop head is a state runs start from |
| `MacParity.SwapTouchesDequeOnly` | examples/l2fwd-1link.rs:24-37 | in every state of the loop, a byte of the area that a swap changes is one of the first twelve of a slice in the deque |
| `MacParity.SwapSparesOthers` | examples/l2fwd-1link.rs:24-37 | and every frame in the pool, in a ring or with the kernel keeps all its bytes |
| `MacParity.SwapTracked` | examples/l2fwd-1link.rs:241-248 | a swap reaches exactly the packets in the deque, and not those on the rings |
| `OneLinkRun.Pass` | examples/l2fwd-1link.rs:227-286 | one pass is service, receive, swap if anything came, forward, fill of all of the deficit, each to its exact amount; with every byte of the area it is a piece of a run of MacParity |
| `OneLinkRun.Execute` | examples/l2fwd-1link.rs:110-287 | from the start through any number of passes, the program's state and its wire are those of a run with these passes, so the parity and the exactly-once condition hold of what it sent |
| `OneLinkDrain.RoundsEnd` | examples/l2fwd-1link.rs:227-286 | on a silent wire with a kernel that keeps transmitting, with a positive batch size and after as many rounds as the load, either nothing is pending, on a ring or missing from the fill ring, or the deque is longer than the Tx ring and so is the batch |
| `OneLinkDrain.StuckEnded` | examples/l2fwd-1link.rs:227-286 | if neither pass nor kernel finds anything to do then one of the two is so |
| `OneLinkDrain.WedgedStays` | examples/l2fwd-1link.rs:39-53 | a pass in the second case sends nothing and only lengthens the deque |
| `OneLinkDrain.PassRoomy` | examples/l2fwd-1link.rs:241-286 | with at most 2049 buffers the second case is never reached: a refusal means that every frame is in the deque or on the Tx ring |
| `DrainsExactly.Exactly` | examples/l2fwd-1link.rs:110-287 | the program drains after every sequence of passes, whatever the kernel does, if and only if it has no buffers, or a batch size from 1 to 2048, or a larger one and at most 2049 buffers |
| `DrainsExactly.BatchTooLarge` | examples/l2fwd-1link.rs:268-286 | for every larger batch size and every larger area: four passes from the start after which nothing ever moves again, with 2049 packets in the deque |
| `DrainsExactly.BatchZero` | examples/l2fwd-1link.rs:241-263 | for batch size 0 and every area: a packet that stays on the Rx ring for ever |
| `DrainsExactly.WedgedForGood` | examples/l2fwd-1link.rs:268-272 | in every run, once the deque is longer than the Tx ring and the batch size larger, nothing is ever sent again and no packet leaves the deque |
| `DrainsExactly.NothingEver` | examples/l2fwd-1link.rs:230-272 | in every run with batch size 0 nothing is ever received or sent |
| `OneLinkFinish.ExecuteAndDrain` | examples/l2fwd-1link.rs:110-287 | from the start through any number of passes and a silent wire: where the program can drain, nine rounds per buffer leave nothing behind, and every packet that arrived has left, in order, swapped as counted |
| `LateSwaps.EveryRunLate` | examples/l2fwd-1link.rs:24-37 | in every run, every frame in flight still reads as its packet went on the wire, so a device may read it at any time before completing it |
| `OneLinkLoop.Loop.SwapPart` | examples/l2fwd-1link.rs:241-248 | the loop's swap changes nothing but the area's bytes, as SwapMacs says |
| `OneLinkLoop.Loop.ServicePart` | examples/l2fwd-1link.rs:230-236 | a service of exactly what the ring shows, at most a batch |
| `OneLinkLoop.Loop.ReceivePart` | examples/l2fwd-1link.rs:241-263 | a receive of exactly what the ring shows, at most a batch and what the deque has room for |
| `OneLinkLoop.Loop.ForwardPart` | examples/l2fwd-1link.rs:268-272 | a forward of none or a batch; none only if there was nothing or no room |
| `OneLinkLoop.Loop.FillPart` | examples/l2fwd-1link.rs:277-286 | a fill of exactly `min(deficit, pool)` |
| `OneLinkLoop.Forward` | examples/l2fwd-1link.rs:39-53 | submits none or a whole batch from the front of the deque |
| `OneLinkLoop.OpenFilled` | examples/l2fwd-1link.rs:127-169 | a new link takes the initial fill completely |
| `OneLinkLoop.Start` | examples/l2fwd-1link.rs:110-199 | the initial fill is always complete, from the back of the area's buffers on a ring of 2048, and the loop owns exactly the area's frames |
| `BiDirHash.BytesRoundTrip` | tests/bidir_hash.rs:213-222 | a sequence number read back from eight bytes is the one written |
| `BiDirHash.QueueOne` | tests/bidir_hash.rs:202-257 | one packet goes through the last buffer's slice into the flat area, over the whole slice and nowhere else, numbered, hashed and remembered; none of the panics fires |
| `BiDirHash.QueueAll` | tests/bidir_hash.rs:201-257 | the loop queues exactly so many packets, numbered on; the area changes by exactly those writes, in order |
| `BiDirHash.Transmit` | tests/bidir_hash.rs:174-266 | queues exactly what the burst rule says: never more than a burst, a full one or nothing while one is left, at the end what fits; after any sequence of calls `seq = transmitted + 1`, the remembered numbers are exactly 2..seq, `transmitted <= total`, and `transmitted` is a multiple of the burst while a full burst is left |
| `BiDirHash.CountFits` | tests/bidir_hash.rs:184-199 | the burst arithmetic never asks for more than a burst, room, buffers or packets left, keeps the multiple, sends part of a burst only at the end, and nothing exactly when not due, done, or short of a burst (at the end, of one packet) |
| `BiDirHash.RuleDecides` | tests/bidir_hash.rs:184-199 | the rule (never more than a burst, room, buffers or packets left; a full burst or nothing while one is left, and all of it if it fits; at the end as much as fits; nothing unless due) holds of exactly one count, the one computed |
| `BiDirHash.Receive` | tests/bidir_hash.rs:268-327 | checks every pending packet in order and returns its buffer; the counts are those of the checks in order |
| `BiDirHash.CheckOne` | tests/bidir_hash.rs:285-313 | the order check and the hash check on one packet |
| `BiDirHash.CleanCountsNothing` | tests/bidir_hash.rs:290-306 | the checks count nothing exactly when the numbers go up and the contents hash as remembered |
| `BiDirHash.CountsExact` | tests/bidir_hash.rs:285-313 | `out_of_order` grows by one for each packet not numbered above all before it, `bad_hash` by one for each whose hash is not the one remembered, and the last number is the greatest seen |
| `Veth.ServiceWithinDeficit` | tests/common.rs:218-229 | `service` never returns more than `cq_deficit`, so the subtraction cannot underflow |
| `Veth.DeficitsExact` | tests/common.rs:218-306 | `cq_deficit` is the frames submitted and not yet serviced; `fq_deficit` and the Rx-path frames make a ring |
| `Veth.RoomToFill` | tests/common.rs:292-306 | a fill always fits, and the kernel never finds the Rx ring full |
| `Veth.VecHasRoom` | tests/common.rs:161-164 | pool, deques, deficits and rings add up to the worker's frames, so the Vec never grows and never limits `service` |
| `Veth.TransmitKeeps` | tests/common.rs:265-269 | packets the test queues move from the Vec to `pending_send`, keeping the invariant |
| `Veth.CheckKeeps` | tests/common.rs:256-260 | received buffers go back to the Vec, keeping the invariant |
| `Veth.KernelTurnKeeps` | tests/common.rs:200-312 | kernel moves keep the worker's invariant |
| `Veth.ServiceKeeps` | tests/common.rs:218-229 | so does servicing, with `cq_deficit` lowered |
| `Veth.ReceiveKeeps` | tests/common.rs:234-251 | so does receiving, with `fq_deficit` raised |
| `Veth.SendKeeps` | tests/common.rs:274-287 | so does sending, with `cq_deficit` raised |
| `Veth.FillKeeps` | tests/common.rs:292-306 | so does filling, with `fq_deficit` lowered |
| `Veth.OnePlace` | tests/common.rs:200-312 | no frame is in two of the worker's nine places |
| `VethWorker.Worker.ServicePart` | tests/common.rs:218-229 | services nothing below a deficit of 64, else exactly what the ring shows, at most 128 |
| `VethWorker.Worker.ReceivePart` | tests/common.rs:234-251 | receives exactly what the ring shows, at most 64 and what the deque has room for |
| `VethWorker.Worker.CheckPart` | tests/common.rs:256-260 | the test sees every received packet in order, counts them and all buffers go back |
| `VethWorker.Worker.TransmitPart` | tests/common.rs:265-269 | the test queues by its burst rule, writing only free buffers |
| `VethWorker.Worker.SendPart` | tests/common.rs:274-287 | submits none or a batch; none only if there was nothing or no room |
| `VethWorker.Worker.FillPart` | tests/common.rs:292-306 | fills exactly `min(pool, 128, deficit)` past the threshold, else nothing |
| `VethWorker.Worker.Iteration` | tests/common.rs:200-312 | one pass is service, receive, check, transmit, send, fill; the area's bytes change by the kernel's recorded moves and the test's writes only; the checks and the remembered hashes are those of the packets of this pass |
| `VethWorker.Worker.Run` | tests/common.rs:200-312 | any number of passes, with the invariant and an account of all bytes and of the books at every loop head; a burst is queued exactly when the clock and the rule say so |
| `VethWorker.Begin` | tests/common.rs:161-185 | takes the whole pool; the loop starts exactly if it holds a ring of buffers, else the fill panics |
| `VethWorker.Launch` | tests/common.rs:73-185 | from the area to the loop no panic is reached: 4096 buffers of 2048 bytes, 512 of them filled from the back, and the worker owns exactly the area's frames |
| `VethWorker.Execute` | tests/common.rs:73-313 | after any number of passes from there every frame of the area is in exactly one place and nothing else is anywhere |
| `Integrity.FreeNotNeeded` | tests/common.rs:256-287 | a free buffer, or a frame the kernel holds for receiving, never contains a packet that is still to be sent or looked at |
| `Integrity.QueuedSomeKeeps` | tests/bidir_hash.rs:201-257 | queueing packets overwrites none that is under way |
| `Integrity.LandedKeeps` | tests/common.rs:234-251 | neither does the kernel by delivering |
| `Integrity.DepartedKeeps` | tests/common.rs:274-287 | what the kernel reads for transmission is the next packet queued, unchanged |
| `Integrity.SentSomeKeeps` | tests/common.rs:274-287 | submitting leaves the packets on the way out as they are |
| `Integrity.ReceivedSomeKeeps` | tests/common.rs:234-251 | receiving leaves the packets on the way in as they are |
| `Integrity.CheckedAllKeeps` | tests/bidir_hash.rs:268-327 | the checks find nothing and move on to the number of the last packet looked at |
| `Integrity.ArrivalsClean` | tests/bidir_hash.rs:285-306 | the packets the test looks at are in order, and each hashes as the other port remembered |
| `Integrity.AlwaysLegible` | tests/bidir_hash.rs:285-288 | every received packet lies inside its frame, so looking at it is always possible |
| `Integrity.EveryRunIntact` | tests/bidir_hash.rs:358-364 | if the wire loses packets but never reorders them, `out_of_order` and `bad_hash` are 0 on both ports in every state of every run |
| `LateReads.EveryRunLate` | tests/common.rs:200-312 | in every run, on both ends, every frame in flight still reads as its packet went on the wire |
| `VethTest.KernelChain` | tests/common.rs:200-312 | what the kernel does while a worker is in an operation is a sequence of Integrity's steps |
| `VethTest.Advance` | tests/common.rs:200-312 | the part of the worker's loop that is next is done, to its full amount and nothing else, with its bytes, checks and books; it is a sequence of Integrity's steps that ends in the worker's state |
| `VethTest.Bench.Turn` | tests/common.rs:342-369 | so for either worker, while the other stands still; it continues the test's run |
| `VethTest.Bench.Run` | tests/common.rs:342-369 | both workers interleaved in any order, one part for every entry of the schedule: the ports' `out_of_order` and `bad_hash` fields are 0 |
| `VethTest.Execute` | tests/bidir_hash.rs:329-369 | so from the launch of the whole test, for any burst size, schedule and losses |

## Left out

- Creation and teardown of sockets and umems, `mmap` and `munmap`, `Drop`, raw pointers, `Send` and `Sync`: foreign calls; their outcomes are parameters, and only the ring-size guards and the layout of the area are modelled.
- `wake`, `needs_wakeup`, `wakeup_if_required`: system calls that do not touch frames.
- Debug-build overflow checks on `idx += 1` (they would panic once a cursor passes 2^32), unaligned chunks, non-zero headroom, XDP programs that move the packet head.
- The integer width of batch sizes passed to libbpf, and products that overflow `usize` in the area's size.
- The controller thread, its queues, `Command::Exit`, statistics, YAML, command line; time is an arbitrary boolean.
- The `duplicated` counter of the veth test: `processed` is created false and never set, so it says nothing. Its random lengths and bytes are arbitrary values, and its hasher is an uninterpreted function.
- `finalize` compares sent with received counts, which a lossy wire need not make equal; only the order and hash counts are proved zero.
- Sequence numbers past 2^64, and a burst size of zero (nothing is ever sent then).
- examples/dump.rs, examples/rxdrop.rs, src/buf_vec.rs, benches/buf_pool.rs: simpler repeats.
- Liveness without assumptions: nothing forces the kernel to move. `Drain` assumes a silent wire and kernels that transmit.
- While an operation works on one link, the kernel of the other link moves before and after it, not inside: the operation neither reads nor writes that link.
- Ring memory ordering: each load and store of a shared cursor is one atomic step in program order, as libbpf's barriers make it.
- `BitAnd` is defined bit by bit on non-negative integers instead of using bit-vectors.
- Multicore.Crew.Turn: one action of a worker (its locked `get`, its initial fills, or one of service, receive, forward and fill) is one step of the schedule. Workers share no memory but pool and area, so finer interleavings act on disjoint objects.
- VethTest.Advance: one part of a worker's loop is one step of the schedule; while it runs, the other worker and its kernel stand still.
