# The MPComm data plane, modelled and proved in Dafny

MPComm moves memory between hosts over many RDMA NICs. A transfer (scatter, gather or
broadcast) is cut into chunks. A worker thread posts each chunk either directly to a NIC, or,
for PXN transfers, stages it first: a copy thread starts an NVLink copy into a buffer on
another GPU, a host callback sets a flag when the copy has landed, and the worker then posts an
RDMA write from that buffer. Completions come back from the NICs in any order. They free
flow-control slots and proxy memory and count towards the end of the transfer.

This project models that path and the objects it is built of, and proves what they promise.

## How the model is laid out

**Objects used by one thread at a time** are classes whose methods are proved against functions
or ghost contents: chunk planning and `getChunk` (`Chunks`), the proxy buffer allocator
(`ProxyBuffer`), the single-producer ring (`SpscQueue`), the handle queue
(`MpscQueue.LockFreeQueue`), the handle pool (`Handles`), the worker's posted and completed
counters (`FlowControl`), the copy thread with its queues, flags and loop (`CopyThread`),
admission (`Admission`), the end of a worker round (`Outcomes.ActiveContexts`), both ends of the
buffer query (`BufferQuery`).

**Concurrent protocols** are transition systems whose steps are single atomic loads, stores,
compare-and-swaps or messages, and whose properties hold of every run under every
interleaving: the two ends of the ring (`SpscInterleaving`), any number of producers on the
handle queue (`MpscQueue`), the connect/accept handshake (`Handshake`), handles and work
request ids (`Routing`), a transfer's own record of failures (`Outcomes`).

**The data plane itself** is the transition system `PxnModel`: worker, copy thread, GPU copy
engine, NICs and users, with source, proxy and remote byte memories, any number of transfers of
any direction, some of them staged through pipelines. A user starts a transfer with `Begin`, at
any time, and the step records the memory of that moment; with `UserWrite` users write memory.
So buffers are filled, used and reused while the plane runs. Failures are steps too: the GPU
refuses a copy (`CopyFails`), a NIC a post (`PostFails`, `PostProxyFails`), a completion carries an
error (`PollFails`). Each marks its transfer; at some later moment the worker lets go of a marked
transfer (`Fail`), which is the cleanup that gives back its proxy space and flags, and results of
its copies that come afterwards are dropped (`DropResult`).

`PxnInvariant` states what holds in every reachable state, in two parts: `Core` (lists, queues,
flags, work requests, flow control) and `Books` (counters, records, allocators, blocks).
`PxnQueues`, `PxnFlags`, `PxnCounts` and `PxnData` carry each part through each kind of change,
`PxnSteps` puts `Core` together step by step, `PxnFailure` does the cleanup, `PxnBooks` adds `Books`
and closes the induction, and `PxnRuns` joins and cuts runs. On top of it stand `PxnDelivery` (the
bytes), `PxnFrame` (what stays unchanged),
`PxnSafety` (memory, flags, counters), `PxnRouting` (work request ids), `PxnAccounting` (exactly
once), `PxnErrors` (when a transfer has an error), `PxnLimits` (how much is under way at once),
`PxnWork` and `PxnProgress` (a falling measure, no deadlock) and `PxnLiveness` (in fair
infinite behaviours every transfer ends). `PxnReset` holds a run in which an allocator is reset
while in use. `PxnAbandon` says exactly when letting go of a failed transfer is harmless to the
others, and `PxnSpoils` holds a run in which it is not. `PxnWorker` and `CopyThread` are the
worker's loops over a pipeline and the copy thread's loop, written as loops over mutable fields;
they are shown to be runs of the transition system.

The order in which the steps may come is more liberal in the model than in the program: the
worker's steps are not tied to its phases, copies land in any order whatever their streams,
completions are polled in any order, and a proxy NIC or a direct NIC is any candidate below its
limit. What is proved of all runs of the model therefore holds of the program's, as far as the
program is used as the next section says.

## What the code relies on

These are preconditions here because the code does not check them.

- One worker drives the PXN transfers: request ids count per worker
  (`src/mpcomm.cpp:4901`) and both rings have one producer and one consumer.
- A NIC's completion queue is polled only by the worker that posts on it.
- No chunk is longer than the proxy buffer that stages it: the maximum fits, or every host's
  slice does (`ChunksFit`). `tryAlloc` does not compare again after it has started over, and
  with the default maximum of 1 GiB and buffers of 256 MiB a slice above 256 MiB breaks this
  (`AllocInBoundsIff`, `DefaultChunkLeavesBuffer`).
- A PXN transfer is started only while no block of the proxy buffers it may use is live, since
  its start resets their allocators (`InOrder`, asked of each step of a run). Nothing in the
  code sees to it; `ResetWhileCopying` is a run without it in which the same proxy memory is
  handed out twice. A reset is one step here. In the program it can also fall between the load
  and the store of `tryAlloc`; then the buffer does not count as idle again before the next reset
  (`ResetInsideAlloc`, `AheadUntilReset`).
- A failed transfer is let go only when nothing of its pipelines is under way: the callbacks of its
  copies have run and its staged work requests have come back (`Quiet`, in `InOrder` too). Its
  direct requests may be outstanding, and the other transfers may do what they like. Nothing in the
  code sees to this either, and it is needed: `CleanupHarmlessIff` and `CleanupMemoryIff` say exactly
  what it costs the others otherwise, and `FailureSpoilsAnother` is a run in which another transfer is
  about to be reported as SUCCESS with wrong bytes.
- While a transfer runs, from `Begin` until the worker finishes it, no user writes its source or
  its destination. Its destination has no byte twice and is disjoint from the source and destination
  of every transfer running at the same time, and of every failed one that still has work requests
  outstanding (`Careful`, asked of each step of a run). Nobody but the data plane writes proxy
  buffers. Before and after, sources may be filled and ranges reused freely.
- No chunk reaches 4 GiB (`DeliversIffWhole` says what happens otherwise).
- The rounding-up in the chunk count does not wrap (`ChunkCountExact` says exactly when).
- `qps_per_connection` is at least 1, as the environment check enforces.

## Where the code does less than it seems to promise

Most come with a lemma that has the exact condition and one with a concrete case.

- The chunk count `(length + max - 1) / max` wraps for lengths within one maximum of the word
  size (`ChunkCountExact`); a two-byte transfer can be planned as empty
  (`TwoBytesPlannedAsNone`).
- Starting a PXN transfer calls `resetAllocator` for every proxy buffer it may use, although
  other transfers may hold blocks there. Harmless iff the totals have met (`ResetSafeIffIdle`,
  `ResetWhileLiveOverlaps`, and as a run of the whole data plane `ResetWhileCopying`). The
  comment at `src/mpcomm.cpp:4265-4267` takes it for granted.
- A reset between the load and the store of `tryAlloc` leaves the allocation total ahead of the
  free total by the old position (`ResetInsideAlloc`). Up to the next reset no request starts over
  and the space only shrinks (`AheadUntilReset`); the start of the next PXN transfer that may use the
  buffer resets it and ends that.
- When a transfer fails, `cleanupPxnContextState` gives back at once the proxy space and the flags
  of its chunks, copies under way included, and results that come later are dropped and their flags
  given back too. That the flag of a copy under way is never free or deleted, in any later moment of
  any run in which the other transfers are let go after their callbacks, holds iff at the cleanup the
  callbacks of all of the transfer's copies have run (`CleanupHarmlessIff`). The worker can see enough to wait for it: every chunk has its result and
  every flag is true (`SeenCalledBack`); it does not look. No later request can be given memory of an
  outstanding copy or RDMA read iff none of those is of the failed transfer (`CleanupMemoryIff`, block
  by block `CleanupExposesIff`). In `FailureSpoilsAnother` one chunk of a transfer comes back with an
  error while its other chunk is being copied. The old copy's callback then sets a flag that another
  transfer's copy has by then, that transfer's chunk is sent before its copy, and it is about to be
  finished with SUCCESS and without its data.
- The comment at `src/mpcomm_pxn.h:186-188` says that the free total can pass the allocation
  total. In runs in order it cannot: the free after a failed submit gives back what was just taken
  (`FreeKeepsHeap`), and the cleanup what the pipeline owes (`FailBooks`).
- A work request's length field has 32 bits, and the length is cut to it without a check
  (`src/mpcomm.cpp:5577`). With a maximal transfer size of 4 GiB or more, a chunk that long
  loses its end and is still reported as done (`DeliversIffWhole`); of exactly 4 GiB nothing is
  sent (`FourGiBSendsNothing`).
- A push on the handle queue can be turned away as full while the queue is empty
  (`FullThoughEmpty`; `SaysFullIff` has the condition). The caller retries
  (`src/mpcomm.cpp:4360-4362`), so nothing is lost.
- The handle queue has no version tag: a compare-and-swap can succeed although head has gone once
  around the ring since its thread's load, and its full check with it. That alone does no harm. The
  ring stays sound iff the compare-and-swap does not find it full, with 4095 handles queued
  (`CasSoundIff`, over runs `SoundRunIff`). If it does, 4096 slots are claimed and the queue looks
  empty (`LapOverfills`). Without a lap it never does (`NoLapNoOverfill`).
- The per-queue-pair limit is kept for logical indices. With fewer queue pairs on the peer,
  the extra indices share queue pair 0 and overload it (`HardwareQpBoundIff`, `TwoOnOneQp`).
- `releaseTransfer` returns to the pool whatever it is given. A second release makes two
  transfers share a handle (`ReleaseSoundIff`, `DoubleReleaseAliases`); a release before the
  last completion lets it count for another transfer (`ReleaseSafeIff`,
  `EarlyReleaseMisroutes`).
- A NIC whose name ends in no digit has suffix -1, and -1 + 4 is 3: it is connected to the peer's
  NIC with number 3 (`TargetsAre`).
- If every attempt of a handshake fails, the active end reports an error while the passive end
  records a connection (`BothConnectedIff`, `OnlyPassiveConnected`).
- GIDs are matched by first occurrence; with a repeated GID an endpoint gets the wrong rkey
  (`RkeyOfNicIff`, `SecondGetsFirstsRkey`).

## Model

| member | source | states |
|---|---|---|
| Chunks.ChunkCountExact | src/mpcomm.cpp:3962 | the planned chunks cover a length iff the 64-bit rounding-up does not wrap |
| Chunks.TwoBytesPlannedAsNone | src/mpcomm.cpp:3962 | with the largest maximum a two-byte transfer gets no chunk |
| Chunks.OwnerOfChunk | src/mpcomm.cpp:272-285 | every chunk index belongs to exactly one host, the one its task names, zero-length hosts anywhere |
| Chunks.ChunkInside | src/mpcomm.cpp:285-293 | a chunk is 1 to max bytes long and lies inside its host's slice on both sides, at the same offset |
| Chunks.RemoteTiling | src/mpcomm.cpp:272-294 | every byte of every host's remote range is carried by exactly one chunk |
| Chunks.LocalTiling | src/mpcomm.cpp:3963-3968 | for scatter and gather every byte of the whole local range is carried by exactly one chunk |
| Chunks.BroadcastTiling | src/mpcomm.cpp:3963-3968 | for broadcast each host's chunks carry every byte of the same local range exactly once |
| Chunks.AllLens | src/mpcomm.cpp:3951-3969 | the chunk lengths add up to the transfer's lengths |
| Chunks.TransferContext.constructor | src/mpcomm.cpp:3951-3969 | the planning loop computes the start and the local offset of every host and the total |
| Chunks.TransferContext.GetChunk | src/mpcomm.cpp:272-294 | the binary search returns the chunk of the layout, whose host owns the index |
| Layout.AnyOrderDelivers | include/mpcomm.h:301-317 | chunks executed in any order, even repeatedly, give the documented layout and change nothing else |
| Layout.DeliversIffWhole | src/mpcomm.cpp:5574-5593 | executing every chunk gives the layout for every memory iff no chunk reaches 4 GiB, the width of a work request's length |
| Layout.FourGiBSendsNothing | src/mpcomm.cpp:5577 | a chunk of exactly 4 GiB is posted as a work request of no bytes, and the layout is missed |
| Layout.MissingChunkLeavesBytes | include/mpcomm.h:301-317 | a chunk that never ran leaves its bytes as they were |
| Layout.GatherAfterScatter | include/mpcomm.h:301-317 | a gather with the arguments of an earlier scatter restores the local buffer |
| ProxyBuffer.TotalsMeetIffIdle | src/mpcomm_pxn.h:189-190 | the two totals meet exactly when nothing is live |
| ProxyBuffer.AllocSucceedsIff | src/mpcomm_pxn.h:178-202 | a request succeeds iff it fits behind the last block or nothing is live |
| ProxyBuffer.AllocKeepsHeap | src/mpcomm_pxn.h:178-202 | the new block is 256-byte aligned, in bounds and apart from all live blocks, and the totals stay the sum of aligned live lengths |
| ProxyBuffer.AllocInBoundsIff | src/mpcomm_pxn.h:189-201 | the block lies in the buffer iff the request is no longer than the buffer |
| ProxyBuffer.DefaultChunkLeavesBuffer | src/mpcomm_pxn.h:107 | the default chunk does not fit the default buffer and is handed out all the same |
| ProxyBuffer.FreeKeepsHeap | src/mpcomm_pxn.h:204-208 | giving back any live block, in any order, keeps the allocator invariant |
| ProxyBuffer.ResetSafeIffIdle | src/mpcomm.cpp:4265-4271 | a reset can make no later block overlap a live one iff the totals have met |
| ProxyBuffer.ResetWhileLiveOverlaps | src/mpcomm.cpp:4265-4271 | a reset with a block live hands out the same bytes again |
| ProxyBuffer.ResetInsideAlloc | src/mpcomm_pxn.h:178-214 | a reset between the load and the store of an allocation that fits behind the old position leaves the totals apart by that position once the block is back |
| ProxyBuffer.AheadUntilReset | src/mpcomm_pxn.h:178-208 | totals that are apart by more than what is live stay so over every sequence of allocations and frees without a reset, and a request succeeds iff it fits behind the last block |
| ProxyBuffer.HandedOutIff | src/mpcomm_pxn.h:178-208 | while an owner of space gives nothing back, some sequence of requests and frees of the others hands out a block that overlaps one behind the position iff that owner owes nothing |
| ProxyBuffer.PxnProxyBuffer.TryAllocate | src/mpcomm_pxn.h:178-202 | any length: the state and address of tryAlloc; for one that fits the buffer it fails iff there is no room behind the last block and something is live, and keeps the heap invariant |
| ProxyBuffer.PxnProxyBuffer.Release | src/mpcomm_pxn.h:204-208 | takes the given block out of the live ones |
| ProxyBuffer.PxnProxyBuffer.ResetAllocator | src/mpcomm_pxn.h:210-214 | both totals start over whatever is live; the heap invariant survives iff nothing was |
| FlowControl.NicBound | src/mpcomm.cpp:4862-4863 | a NIC's outstanding count is within the bound that its queue pairs' bounds give |
| FlowControl.FreeQpIff | src/mpcomm.cpp:5066-5083 | the NIC check passes iff some queue pair is below its bound |
| FlowControl.RealLoad | src/mpcomm.cpp:5099-5101 | hardware queue pair 0 carries its own requests and those of every index the peer does not have, each other one its own |
| FlowControl.HardwareQpBoundIff | src/mpcomm.cpp:5099-5100 | hardware queue pairs keep the bound iff the peer offers as many as configured |
| FlowControl.TwoOnOneQp | src/mpcomm.cpp:5099-5100 | with one hardware queue pair for two logical ones, both within the bound, the hardware one is above it |
| FlowControl.WorkerCounters.constructor | src/mpcomm.cpp:4865-4873 | all counters start at zero and balanced |
| FlowControl.WorkerCounters.SelectQp | src/mpcomm.cpp:5500-5518 | finds the first queue pair with the fewest outstanding, and finds one iff the NIC is below its limit |
| FlowControl.WorkerCounters.RecordPost | src/mpcomm.cpp:5601-5604 | one post on its NIC and queue pair keeps the counters balanced |
| FlowControl.WorkerCounters.RecordCompletion | src/mpcomm.cpp:5992-5998 | one completion on its NIC and queue pair keeps the counters balanced |
| PxnQueues.CompletedIffAllDone | src/mpcomm.cpp:5782-5785 | total_completed reaches the number of chunks iff every chunk is done |
| PxnBooks.InitInv | src/mpcomm.cpp:4862-4903 | the first state satisfies the invariant |
| PxnBooks.StepCore | src/mpcomm.cpp:4911-5182 | every step of every actor, any reset and any failure included, keeps lists, queues, flags and flow control in order, the cleanup of a failed transfer if the callbacks of its copies have run |
| PxnBooks.StepInv | src/mpcomm.cpp:4911-5182 | every step keeps the whole invariant, a reset if it finds the allocator idle, the cleanup of a failed transfer if nothing of its pipelines is under way |
| PxnBooks.RunInv | src/mpcomm.cpp:4911-5182 | the invariant holds after every run with that discipline, whatever fails in it |
| PxnSteps.ResultAwaited | src/mpcomm.cpp:4911-4955 | a copy result is awaited by exactly one copying chunk, in a running transfer: the one that submitted it; or the chunk was dropped with its failed transfer, and then nobody awaits it |
| PxnSteps.CreditsOwnPipe | src/mpcomm.cpp:6068-6076 | the search by NIC credits the pipeline that the work request came through |
| PxnBooks.MetNothingHeld | src/mpcomm_pxn.h:189-194 | when a buffer's totals meet no chunk holds a block of it |
| PxnReset.ResetWhileCopying | src/mpcomm.cpp:4265-4271 | a run, careful but for one reset while a copy is under way, after which two chunks hold the same proxy block |
| PxnFailure.FailCore | src/mpcomm.cpp:4815-4853 | the cleanup of a failed transfer keeps lists, queues and flags in order, if the callbacks of its copies have run |
| PxnFailure.FailBooks | src/mpcomm.cpp:4820-4849 | it keeps counters, allocator totals and blocks in order, if also its staged work requests have come back |
| PxnAbandon.CleanupHarmlessIff | src/mpcomm.cpp:4815-4853 | after the cleanup of a failed transfer no flag of a copy under way is free or deleted at any later moment of any run, resets and later failures included, iff the callbacks of all its copies have run (later cleanups wait for theirs) |
| PxnAbandon.SeenCalledBack | src/mpcomm.cpp:4911-4945 | they have if every chunk of its copying lists has its result and a true flag or none |
| PxnAbandon.CleanupExposesIff | src/mpcomm.cpp:4820-4849 | after the cleanup the memory of an outstanding copy or RDMA read can be handed out again iff the copy or read is of the failed transfer |
| PxnAbandon.CleanupMemoryIff | src/mpcomm.cpp:4820-4849 | no block handed out after the cleanup overlaps an outstanding copy or read, whatever else is requested and given back, iff nothing of the failed transfer is outstanding |
| PxnSpoils.FailureSpoilsAnother | src/mpcomm.cpp:4832-4836 | a careful run without resets in which a work request of one transfer comes back with an error, the worker lets go of that transfer while its other chunk is being copied, and another transfer is then ready to be finished, all chunks completed, without its layout |
| PxnDelivery.EndToEnd | src/mpcomm.cpp:5388-5623 | in every run, failures of other transfers included, at the moment the worker finishes a transfer each host's range holds its slice of what the source held when that transfer was started |
| PxnDelivery.FinishDelivers | src/mpcomm.cpp:5782-5795 | what finishing a transfer finds: the layout of the memory recorded at its start, byte for byte |
| PxnDelivery.StepData | src/mpcomm.cpp:4957-5182 | every step keeps: sources unchanged, landed copies and posted reads carry their slice, arrived chunks delivered; the cleanup of a failed transfer if the callbacks of its copies have run |
| PxnDelivery.ApartChunks | include/mpcomm.h:301-317 | transfers whose ranges are disjoint have disjoint chunks |
| PxnFrame.StepFrame | src/mpcomm.cpp:5085-5178 | a step changes a byte only as a user's write, inside the destination of a transfer that runs or has work requests outstanding, or inside a proxy buffer's bounds |
| PxnFrame.UserWrites | include/mpcomm.h:301-317 | users may write any byte outside the proxy buffers at any time, and it is there afterwards, with nothing else changed |
| PxnFrame.UntouchedKept | include/mpcomm.h:301-317 | over any run a byte that no user writes and that no such destination and no proxy buffer contains keeps its value |
| PxnSafety.ProxyMemorySafe | src/mpcomm.cpp:4974-5008 | no submit hands out proxy memory that an outstanding copy writes or an outstanding RDMA reads |
| PxnSafety.ReusedOnlyWhenIdle | src/mpcomm_pxn.h:189-194 | an allocator starts over only while no chunk uses its buffer |
| PxnSafety.FlagSound | src/mpcomm.cpp:5060-5062 | a chunk that sees its flag true has its own copy landed: its block holds its slice of the source as it was at the transfer's start |
| PxnSafety.FlagOnePlace | src/mpcomm_pxn.cpp:557-571 | every flag is in exactly one of pool, recycle queue and one launched copy, and there once, failed transfers or not: none is lost, none is shared |
| PxnSafety.FlowBounded | src/mpcomm.cpp:5464-5518 | outstanding counts are the requests outstanding, within their bounds, and a NIC below its limit has a free queue pair |
| PxnSafety.PipelineConserved | src/mpcomm.cpp:6068-6076 | assigned_outstanding is pending plus copying plus posted minus completed, and the guarded decrement never skips |
| PxnSafety.NothingLeftAtFinish | src/mpcomm.cpp:4815-4853 | cleanup of a finished transfer finds nothing pending and nothing copying |
| PxnErrors.FailedIff | src/mpcomm.cpp:4928-4932 | after every run a transfer has an error iff some step was a refused post of it, direct or staged, a completion of it with an error, or the delivery of a refused copy's result to it |
| PxnErrors.AnswersUnseen | src/mpcomm_pxn.cpp:675-798 | the results on their way to the worker are the GPU's answers it has not seen, in order, each with a flag iff the copy was taken |
| PxnErrors.AnythingCanFail | src/mpcomm.cpp:5582-5598 | wherever a post, a copy or a completion is possible it can also fail |
| PxnErrors.EndsByErrors | src/mpcomm.cpp:5769-5795 | the worker finishes only transfers that have seen no error, and lets go only of those that have |
| PxnErrors.FinishedNoError | src/mpcomm.cpp:5592-5598 | a run with a finished transfer has no error of it, before or after its end; one with a failed transfer has |
| PxnRouting.PollDecodes | src/mpcomm.cpp:5987-5998 | what the worker decodes from a completion of a reachable state are the poster's NIC, queue pair and handle |
| PxnRouting.IdsDistinct | src/mpcomm.cpp:5584 | outstanding work requests of the data plane have distinct ids |
| PxnAccounting.ExactlyOnce | src/mpcomm.cpp:5582-5611 | in every run, whatever fails, a chunk is posted and polled at most once, and exactly once in a run that finishes its transfer |
| PxnAccounting.FinishedBytes | src/mpcomm.cpp:4523-4528 | the bytes reported for a finished transfer are the sum of its lengths |
| PxnAccounting.AtMostFiveActive | src/mpcomm.cpp:5209-5253 | at most five PXN transfers are active at any time, neither finished nor let go |
| PxnLimits.RoomForFive | src/mpcomm.cpp:5221-5238 | a queued PXN transfer can be activated iff fewer than five are active |
| PxnLimits.RoomAtOne | src/mpcomm.cpp:5434-5461 | at the default weight a proxy NIC has room iff its assigned chunks and its outstanding requests are both below one NIC's worth of requests and two for each active PXN transfer |
| PxnLimits.ProxyLoadBounded | src/mpcomm.cpp:5434-5461 | at the default weight or above no proxy NIC ever has more chunks assigned than eleven times its worth of requests |
| PxnAccounting.SnapshotStaysExact | src/mpcomm.cpp:5327-5337 | the sum over active PXN transfers plus one for each assigned chunk stays what the sum would be, up to the next poll |
| PxnWork.StepWork | src/mpcomm.cpp:4965-5083 | no step makes the summed stage ranks grow, and every step that moves something makes them fall |
| PxnProgress.NoDeadlock | src/mpcomm.cpp:5390-5623 | in every reachable state with a started transfer that is neither finished nor let go some step in order that moves something on is enabled |
| PxnProgress.MovesBounded | src/mpcomm.cpp:4965-5083 | a run takes no more moving steps than its first state has work |
| PxnProgress.CanFinish | src/mpcomm.cpp:5766-5795 | from every reachable state some run in order, of bounded length, of moving steps alone, brings every started transfer to its end |
| PxnLiveness.StillHelps | src/mpcomm.cpp:4991-4998 | retries, recycling, resets and idle passes take no moving step away |
| PxnLiveness.EveryTransferEnds | src/mpcomm.cpp:5766-5795 | in every fair infinite behaviour every transfer that was started is finished or, because of an error, let go |
| PxnLiveness.EveryTransferFinishes | src/mpcomm.cpp:5766-5795 | a transfer is finished if no step of the behaviour is an error of its own: a refused post, a refused copy, a completion with an error; whatever happens to others |
| PxnLiveness.EveryTransferDelivered | src/mpcomm.cpp:5388-5623 | in every fair behaviour every transfer that is started ends later: if no step before was an error of its own it is finished, and then each host's range holds its slice of what the source held at the start; else it is let go |
| PxnWorker.PipelineWorker.DrainCompleted | src/mpcomm.cpp:5035-5050 | the freeing loop is one Drain step |
| PxnWorker.PipelineWorker.SubmitFront | src/mpcomm.cpp:4974-5008 | one round is a Submit, a Submit on a full queue with its space given back, or no Submit is enabled |
| PxnWorker.PipelineWorker.AdvanceCopies | src/mpcomm.cpp:4965-5012 | the submit loop is a run of such steps and stops where no Submit is enabled |
| PxnWorker.PipelineWorker.ChooseQp | src/mpcomm.cpp:5066-5083 | finds a queue pair of least outstanding on which the post is enabled, or none is |
| PxnWorker.PipelineWorker.PostFront | src/mpcomm.cpp:5085-5178 | posting the front chunk is one PostProxy step |
| PxnWorker.PipelineWorker.PostRefused | src/mpcomm.cpp:5132-5142 | a refused post is one PostProxyFails step and records an error |
| PxnWorker.PipelineWorker.PostReady | src/mpcomm.cpp:5054-5179 | the posting loop is a run of PostProxy steps that ends with the first refused post, and otherwise stops where none is enabled |
| CopyThread.CopyThreadState.Submit | src/mpcomm_pxn.cpp:816-821 | the request is queued unless the queue is full |
| CopyThread.CopyThreadState.RecycleAll | src/mpcomm_pxn.cpp:676-680 | every returned flag goes to the pool, in order: a run of Recycle steps |
| CopyThread.CopyThreadState.Pop | src/mpcomm_pxn.cpp:682-686 | taking the oldest request is a PopRequest step, or none is enabled |
| CopyThread.CopyThreadState.LaunchCopy | src/mpcomm_pxn.cpp:722-774 | a flag of the pool or a new one, set to false before the callback that sets it is queued: a Launch step |
| CopyThread.CopyThreadState.Refuse | src/mpcomm_pxn.cpp:699-742 | a refused copy leaves a result without a flag: a CopyFails step |
| CopyThread.CopyThreadState.PushHeld | src/mpcomm_pxn.cpp:773-797 | queueing the result is a PushResult step and appends it, or the queue holds 4096 and the thread keeps it |
| CopyThread.CopyThreadState.Pass | src/mpcomm_pxn.cpp:675-798 | one pass of the copy thread's loop is a run; afterwards every returned flag is in the pool, the oldest request is taken, and its result, with a flag iff the GPU took the copy, is at the end of the result queue, or in the thread's hands if that queue was full |
| CopyThread.CopyThreadState.GiveBack | src/mpcomm_pxn.cpp:562-572 | the flag is queued, or deleted when the queue is full |
| CopyThread.CopyThreadState.PollAllResults | src/mpcomm_pxn.cpp:829-838 | returns every queued result, in order |
| SpscQueue.SpscQueue.TryPush | src/mpcomm_pxn.h:51-61 | succeeds iff fewer than capacity items are queued, and appends |
| SpscQueue.SpscQueue.TryPop | src/mpcomm_pxn.h:63-72 | succeeds iff something is queued, and takes the oldest |
| SpscQueue.SpscQueue.Empty | src/mpcomm_pxn.h:74-77 | says whether nothing is queued |
| SpscQueue.SpscQueue.SizeApprox | src/mpcomm_pxn.h:79-84 | exact while both ends rest |
| SpscInterleaving.NoConflict | src/mpcomm_pxn.h:52-72 | every queued slot is written and not overwritten before it is read; the free slot about to be written is none of them |
| SpscInterleaving.StepRefines | src/mpcomm_pxn.h:52-72 | each load, access and publish is a push, a pop or nothing on a bounded queue; full and empty are told correctly |
| SpscInterleaving.WaitFree | src/mpcomm_pxn.h:51-72 | a push or pop that has begun can always take its next step, which brings it nearer to its end and which nothing of the other end undoes; it ends by publishing, or a push on a full and a pop on an empty queue |
| SpscInterleaving.CallsEnd | src/mpcomm_pxn.h:51-72 | after its load a push takes at most three own steps, and so does a pop, however the two interleave |
| SpscInterleaving.Fifo | src/mpcomm_pxn.h:52-72 | under every interleaving the popped items are a prefix of the pushed ones, at most capacity behind |
| MpscQueue.StepInv | src/mpcomm.cpp:506-533 | every load, check, compare-and-swap, store and consumer step keeps the ring's invariant, a compare-and-swap if it does not find the ring full |
| MpscQueue.StepRefines | src/mpcomm.cpp:506-533 | the compare-and-swap appends, the tail's advance pops the oldest handle, nothing else changes the queue |
| MpscQueue.CasSoundIff | src/mpcomm.cpp:508-516 | a compare-and-swap, laps or not, keeps the ring sound iff fewer than n - 1 handles are queued; otherwise n slots are claimed, the queue looks empty, and head has gone once around since the load |
| MpscQueue.SoundRunIff | src/mpcomm.cpp:506-533 | the ring is sound all along a run iff none of its compare-and-swaps finds it full |
| MpscQueue.NoLapNoOverfill | src/mpcomm.cpp:506-533 | in a run without a lap between a thread's load and its compare-and-swap none does |
| MpscQueue.Linearizable | src/mpcomm.cpp:506-533 | for any number of producers, if no compare-and-swap finds the ring full: popped handles are a prefix of the compare-and-swap order, at most 4095 slots are claimed, slots outside [tail, head) are INVALID |
| MpscQueue.WaitEnds | src/mpcomm.cpp:527-529 | the consumer waits only for a thread that has just its store left |
| MpscQueue.EndsAlone | src/mpcomm.cpp:506-520 | wherever a thread is in its push, at most six of its own steps end it, its handle claimed and stored or turned away as full |
| MpscQueue.PushesConserved | src/mpcomm.cpp:506-520 | every push begun is claimed once, still trying, or turned away |
| MpscQueue.SaysFullIff | src/mpcomm.cpp:509-513 | when the full check answers full, exactly, a lap of head included |
| MpscQueue.FullThoughEmpty | src/mpcomm.cpp:509-513 | a run in which a push is turned away from an empty queue |
| MpscQueue.LapOverfills | src/mpcomm.cpp:508-516 | for every ring size a run with a lap whose compare-and-swap finds the ring full, claims every slot and leaves the queue looking empty |
| MpscQueue.LockFreeQueue.TryPush | src/mpcomm.cpp:506-520 | succeeds iff fewer than 4095 handles are queued, and appends |
| MpscQueue.LockFreeQueue.TryPop | src/mpcomm.cpp:521-533 | INVALID iff nothing is queued, else the oldest handle |
| Handles.AllocateSound | src/mpcomm.cpp:770-782 | fails iff 65535 handles are live, else gives a handle that is not live |
| Handles.ReleaseSoundIff | src/mpcomm.cpp:785-789 | the free list stays duplicate-free and disjoint from the live handles iff the released handle was live |
| Handles.DoubleReleaseAliases | src/mpcomm.cpp:785-789 | after a double release the next two allocations return the same handle |
| Handles.HandlePool.AllocateHandle | src/mpcomm.cpp:770-782 | the pool's new state and live handles |
| Handles.HandlePool.ReleaseHandle | src/mpcomm.cpp:785-789 | whatever is released: the free list grows by it unless it is INVALID, and the pool stays sound iff it was live or INVALID |
| WrIds.DecodeEncode | src/mpcomm.cpp:132-164 | an id fits one word, and decodes to its fields cut to their widths |
| WrIds.RoundTripIff | src/mpcomm.cpp:132-164 | the round trip is exact iff every field fits its width |
| WrIds.WordRoundTrip | src/mpcomm.cpp:132-164 | on 64-bit words, with the code's shifts and masks, each field comes back iff it fits its width |
| Routing.RoutedToPoster | src/mpcomm.cpp:5987-6017 | a completion decodes to the transfer that posted it |
| Routing.CreditsPoster | src/mpcomm.cpp:5987-6017 | any outstanding request may complete next, and that credits one completion to its poster and none to any other |
| Routing.DistinctIds | src/mpcomm.cpp:5584 | outstanding work requests have distinct ids |
| Routing.ReleaseSafeIff | src/mpcomm.cpp:4537-4626 | releasing a live handle keeps routing right iff nothing of it is outstanding |
| Routing.EveryCompletionRouted | src/mpcomm.cpp:5987-6017 | over every run in which handles are released once, after the end: ids distinct, completions credited to their posters |
| Routing.EarlyReleaseMisroutes | src/mpcomm.cpp:4537-4546 | a run in which an early release credits a completion to another transfer |
| Outcomes.StepInv | src/mpcomm.cpp:5590-5598 | every event keeps: handed-out chunks are posted once or wait once in a list, posts are outstanding or came back; an error is recorded exactly with a failing event |
| Outcomes.ErrorSticks | src/mpcomm.cpp:5766-5795 | an error is never turned into SUCCESS, and is there iff something failed |
| Outcomes.HandedInOrder | src/mpcomm.cpp:5388-5623 | chunks are handed out in order, one by each direct post and each assignment |
| Outcomes.NothingAfterPoll | src/mpcomm.cpp:5690-5700 | after a failed poll the worker does nothing more for the transfer; only completions of what it had posted still come |
| Outcomes.ReportsLast | src/mpcomm.cpp:5566-5598 | a transfer's error is the code of its last failure, where a failed poll counts only if nothing failed before it |
| Outcomes.ReviewVerdict | src/mpcomm.cpp:5766-5795 | at a round's end a transfer ends with SUCCESS iff nothing failed and every chunk was completed once, goes on iff nothing failed and some chunk was not, else ends with the code of the last failure that counts |
| Outcomes.PostedAtMostOnce | src/mpcomm.cpp:5582-5611 | whatever fails, no chunk is posted twice, nor completed without a post |
| Outcomes.SuccessMeansAll | src/mpcomm.cpp:5766-5795 | SUCCESS implies no failure, every chunk posted once and completed once, bytes the sum of the lengths |
| Outcomes.NobodyLost | src/mpcomm.cpp:5769-5795 | every context comes out of a round's review exactly once: among those that stay if it goes on, else among those removed, finished |
| Outcomes.ActiveContexts.ReviewAll | src/mpcomm.cpp:5769-5795 | the erasing loop keeps and removes exactly those, in order |
| Admission.EachOnce | src/mpcomm.cpp:5223-5282 | every handle is started once, put off once, or gone |
| Admission.OrderKept | src/mpcomm.cpp:5258-5282 | those started and those put off keep their order |
| Admission.RoomUsed | src/mpcomm.cpp:5235-5238 | only PXN transfers are put off, and only when no room is left |
| Admission.Worker.TryActivate | src/mpcomm.cpp:5223-5255 | one handle: gone, put off, or started and counted |
| Admission.Worker.RetryPending | src/mpcomm.cpp:5258-5268 | the in-place compaction leaves exactly the handles put off again |
| Admission.Worker.DrainQueue | src/mpcomm.cpp:5271-5282 | the queue is emptied, those put off appended |
| Admission.Worker.AdmitRound | src/mpcomm.cpp:5209-5282 | one round is admission over the put-off handles and then the queue, and keeps the limit of five |
| NicMatching.SuffixOf | src/mpcomm.cpp:1871-1892 | a name that ends in the decimal digits of n, with any zeros before them and anything before those, has suffix n; one without a digit at its end has -1 |
| NicMatching.EveryName | src/mpcomm.cpp:1871-1892 | every name is of one of these two forms |
| NicMatching.TargetsAre | src/mpcomm.cpp:3138-3157 | a NIC with number n goes to the first remote NIC with number n and then to the first with n - 4, below 4 with n + 4, as far as there are such, and to no other; one without a number to the first with number 3 |
| NicMatching.AttemptsAre | src/mpcomm.cpp:3138-3178 | the active end attempts exactly these pairs, a NIC's own number first |
| NicMatching.ExpectedConnections | src/mpcomm.cpp:3608-3640 | the passive end's count equals the number of these attempts, for any two name lists |
| NicMatching.AttemptsGrouped | src/mpcomm.cpp:3138-3178 | attempts go local NIC by local NIC, each pair once, indices in range |
| Handshake.StepInv | src/mpcomm.cpp:3178-3335 | no interleaving and no failure pattern gets the two message loops out of step |
| Handshake.NeverBlocked | src/mpcomm.cpp:3651-3792 | some end can go on until both are done, and then nothing is left on the wire |
| Handshake.HandshakeAgrees | src/mpcomm.cpp:3651-3792 | every run is bounded and ends with transposed NIC maps and queue pairs paired index by index |
| Handshake.QueuePairsOnce | src/mpcomm.cpp:3190-3335 | in every run each end uses each of its queue pairs for one connection, once |
| Handshake.BothConnectedIff | src/mpcomm.cpp:3337-3343 | the active end has a connection iff some attempt succeeded; the passive end records one always |
| Handshake.OnlyPassiveConnected | src/mpcomm.cpp:3337-3343 | a handshake of one failing attempt: the passive end records a connection, the active end has none |
| Handshake.NamesOk | src/mpcomm.cpp:3114-3178 | any two name lists give such a handshake, of exactly the pairs four or no numbers apart, with the smaller of the two queue pair counts |
| Wire.GetPut | src/mpcomm.cpp:2700-2760 | a fixed-width integer is read back as written |
| Wire.GetPutSigned | src/mpcomm.cpp:2744-2748 | so is an int32_t |
| Wire.PutAt | src/mpcomm.cpp:2700-2760 | the least significant byte comes first |
| Wire.GidRoundTrip | src/mpcomm.cpp:888-916 | stringToGid undoes gidToString |
| Wire.GidTextInjective | src/mpcomm.cpp:888-902 | different GIDs have different texts |
| Wire.GidTextAt | src/mpcomm.cpp:888-902 | the text is two lower-case hex digits for each byte with colons between |
| Wire.HexDigits | src/mpcomm.cpp:904-911 | hex digits are read in either case |
| Wire.GetPutText | src/mpcomm.cpp:2716-2725 | a text shorter than its zeroed buffer is read back as written |
| BufferQuery.QueryRoundTrip | src/mpcomm.cpp:2693-2768 | the client gets back exactly the published buffers and GIDs, or an invalid-argument error when there are none |
| BufferQuery.ParseOutcome | src/mpcomm.cpp:2492-2582 | every stream: an invalid argument iff it announces no buffers, a connection error iff it ends before its eight bytes of counts or before all that they announce, else success with as many GIDs and buffers as announced |
| BufferQuery.CutOffIsError | src/mpcomm.cpp:2492-2582 | a stream is accepted iff it holds every announced byte |
| BufferQuery.RkeyOfNicIff | src/mpcomm.cpp:2605-2613 | an endpoint gets its NIC's rkey for every list of rkeys iff no earlier NIC has the same GID |
| BufferQuery.SecondGetsFirstsRkey | src/mpcomm.cpp:2605-2613 | with the same GID on two NICs the second gets the first one's rkey |
| BufferQuery.NoNicNoRkey | src/mpcomm.cpp:2602-2613 | an endpoint whose GID the peer does not have gets rkey 0 |
| BufferQuery.EndpointGetsItsRkey | src/mpcomm.cpp:2595-2616 | with distinct GIDs every connected endpoint gets, for every buffer, the rkey published for its NIC |
| BufferQuery.ReorderRkeys | src/mpcomm.cpp:2604-2614 | the loops compute that order |
| BufferQuery.HandleBufferQuery | src/mpcomm.cpp:2693-2768 | the server's loops write exactly the response |
| BufferQuery.QueryRemoteBuffer | src/mpcomm.cpp:2492-2582 | the client's loops compute exactly the parse |

## Left out

- ibverbs, CUDA, libnuma, sockets and sysfs: they are environment steps (a post is accepted, a
  copy lands, a completion appears, a message arrives).
- Weak memory orders: every atomic access is one step of a sequentially consistent run.
- The choice of the NIC with the least load, and the floating-point weight in it: any candidate
  below its limit may be taken; the weight is a real number.
- A proxy NIC's limit depends on a snapshot of assigned chunks and active transfers taken once
  a round; the transition system uses their current values (`SnapshotStaysExact` relates the
  first).
- Grouping of the worker's steps into phases and batches of 16 posts: the model allows more
  orders.
- Order of copies within one CUDA stream, and the round robin over streams: copies land in any
  order.
- The fatal poll error (`src/mpcomm.cpp:5690-5700`), which drops every active transfer without a
  cleanup.
- A failure of `cuLaunchHostFunc` after the copy was accepted (`src/mpcomm_pxn.cpp:760-771`): a copy
  that is under way without a callback. `CopyFails` is for copies that were not started.
- A work request that comes back with an error has written all of its bytes here or none; a part is
  not modelled.
- The pipelines of a failed transfer are shown empty after `Fail`; the program forgets them with the
  context. Its allocator space is given back as in the program.
- PxnAbandon.CleanupMemoryIff: the later requests and frees are any that the other pipelines' balances
  allow, without a reset.
- `Chunks`: remote and local addresses do not wrap at 64 bits.
- WrIds.DecodeEncode: for `Routing`, masks and shifts are written as remainders and products on
  naturals. `WordRoundTrip` proves the same of the machine words; the two forms are not
  connected by a proof.
- MpscQueue.LockFreeQueue.TryPop: the wait for an unfilled slot is in the interleaved model
  (`ReadSlot`, `WaitEnds`); with one thread at a time it never waits. The retry loop of
  `tryPush` around its compare-and-swap is there too (`CasFails`).
- PxnProxyBuffer.Release: the block that is given back is named by a ghost index, because the
  program passes only a length; it counts as the model's record.
- NicMatching.SuffixOf: a number too large for int, for which the program raises an exception, is
  read as the number.
- Handshake.HandshakeAgrees: failures of createQP, of the passive end and of the TCP connection
  end the exchange and are not followed further.
- Wire.GidRoundTrip: text that gidToString does not write is rejected, where sscanf may read
  part of it.
- BufferQuery.QueryRoundTrip: fewer than 2^32 buffers and NICs, because their numbers are sent
  in 32 bits.
- BufferQuery.EndpointGetsItsRkey: two published buffers with the same address overwrite each
  other in the client's map by address, which is not modelled.
- NUMA binding, topology discovery, quarantine of NICs, fault injection and its tolerate mode,
  the bench-sequential mode, queue pair rebuild: driven by hardware and clocks.
- `pollAllNicsForAsync`: the same routing as `pollAllNicsForWorker`.
- Statistics, timing, logging, environment parsing, Python bindings, examples and deployment.
