# Models and proofs for the kt-kernel runtime

This project models the concurrent and ownership-heavy parts of kt-kernel in Dafny and proves what they promise.

**FP8 layerwise transport** (`PoisonLatch`, `TransportModel`, `TransportLatch`, `TransportInvariant`,
`TransportProofs`, `TransportTheorems`, `TransportProgress`, `TransportCompletion`). Rank zero's producer writes expert
after expert into a ring of host slots; every rank's copy thread copies each expert to its own GPU table. The threads
meet only in monotone cells of a shared control region and a compare-and-swap poison latch. The model is a transition
system over any number of ranks, slots, experts and buffer kinds, with a program point per thread and one shared access
per step; asynchronous copies sit on a stream per rank and are executed by the device at any later time. Runs may
contain throwing writers, failing copies, timeouts, mismatched calls, calls after failed ones, ranks that close and
construct their transport anew, and poisons by anybody. The invariant is proved step by step with rely/guarantee
relations between the threads; the theorems are about all runs: the slot pipeline equals the nested copy loop, the
writer never touches a slot still in use, publications are read whole, the epoch cells are chained, a failed layer is
never followed by another epoch, and under the intended use a measure bounds the work, nothing gets stuck, and every
fair infinite run reaches the end of the plan.

**TaskQueue** (`TaskQueueModel`, `TaskQueueProofs`, `TaskQueueTheorems`). Many enqueuers, one worker, `sync`,
`sync_noexcept`, `record_exception` and the destructor over a linked list that is broken between the tail exchange and
the link. Nodes are numbered in allocation order, and a node's number names the enqueue call that allocated it.

**InNumaPool and NumaJobDistributor** (`NumaPool`, `NumaJobs`). Work distribution by fetch-and-add with reused
WORKING/WAITING flags, one job after another, and a distributor that hands each subpool one such job.

**CPUInfer ownership** (`CpuInferTask`, `CpuInfer`). Classes whose methods require of every object they touch that it
has not been deleted, so use after free and double free are excluded by verification; `Valid()` accounts for every owned
task ever handed over.

**SharedMemBuffer** (`SharedBuffer`), **reduce_sum** (`Reduce`) and the **expert-grouped MoE dispatch** (`MoE`) are
imperative methods over pointers, arrays and matrices, proved against specifications.

`hide` at the head of a proof names the definitions the proof does without; `Options` holds the shared `Option` type.

## Assumptions

- Sequential consistency at the granularity of single loads and stores, in program order. Fences only order what is
  already ordered here.
- Transport: `all_rank_host_ptrs[(slot, rank, kind)]` is the same memory as that rank's `local_host_ptrs[(slot,
  kind)]`; the API calls of one rank come one after another; `run_producer` is called at most once per joined layer; a
  rank constructs a new transport only after closing the old one and between layers, rank zero after its `run_producer`
  of the last layer; the writer callback stores only into the buffers it is given. Sizes and epochs are unbounded, so
  64-bit wrap-around of `next_sequence` and of the byte counts is outside the model.
- A CUDA copy is one atomic assignment per kind that may fail to be issued; a launch succeeds or fails; a timeout is a
  step the environment may take at any failed poll.
- InNumaPool: a job asks for at most as many workers as the pool has threads, and one thread at a time calls
  `do_work_stealing_job`.
- MoE: exact real arithmetic and any activation function; the layer sizes are positive.

## Where the code and its promises part

- A restricted worker count of zero divides by zero on the first task (`NumaPool.ZeroWorkersFault`); the division is by
  zero exactly in that case (`NumaPool.DivisorZero`).
- The grouped MoE form fails when a token repeats an expert id, because the scatter counts the id once, and on an empty
  batch, because the final view is ambiguous; on all other valid inputs it equals the batched forms
  (`MoE.ExpertFloat`). `MoE.RepeatedIdFails` and `MoE.EmptyBatchFails` run the smallest failing cases.
- A pointer variable announced for two regions that start at different places is wrong for one of them
  (`SharedBuffer.RegisteredTwice`). After an allocation that moved the buffer, or that found every live pointer right,
  every live pointer is right if and only if no pointer is registered with two different starts
  (`SharedBuffer.SharedMemBuffer.Alloc`); announcing only new, pairwise different pointers keeps it so
  (`SharedBuffer.NewPointersAgree`).

## Model

| member | source | states |
|---|---|---|
| PoisonLatch.BitsRoundTrip | kt-kernel/fp8_layerwise_transport.cpp:130-132 | a signed 64-bit rank survives the cast to unsigned bits and back |
| PoisonLatch.RunInv | kt-kernel/fp8_layerwise_transport.cpp:156-182 | with any number of publishers and readers there is at most one claim winner, and every reader past the word check holds the winner's cells |
| PoisonLatch.WordAdvances | kt-kernel/fp8_layerwise_transport.cpp:174-182 | the word moves only 0, claimed, 1, one stage at a time, and the winner's code, rank and message never change |
| PoisonLatch.ReportsAreTheWinners | kt-kernel/fp8_layerwise_transport.cpp:156-172 | every complete report names the code, rank and truncated message of the only attempt that won the claim |
| TransportInvariant.InitInv | kt-kernel/fp8_layerwise_transport.cpp:246-252 | the freshly initialised region satisfies the invariant |
| TransportProofs.JoinStep | kt-kernel/fp8_layerwise_transport.cpp:271-327 | every step of join keeps the shared invariant, its own program point's facts and what the other threads rely on |
| TransportProofs.ProducerStep | kt-kernel/fp8_layerwise_transport.cpp:365-451 | the same for every step of run_producer |
| TransportProofs.WaitStep | kt-kernel/fp8_layerwise_transport.cpp:329-363 | the same for every step of wait |
| TransportProofs.CloseStep | kt-kernel/fp8_layerwise_transport.cpp:453-463 | the same for every step of close |
| TransportProofs.ConsActOk | kt-kernel/fp8_layerwise_transport.cpp:591-682 | the same for every step of a copy thread, including its failures |
| TransportProofs.CopyRunsOk | kt-kernel/fp8_layerwise_transport.cpp:562-588 | the device executing the oldest queued copy keeps the invariant: the table is the nested copy loop one copy further |
| TransportProofs.WriterStores | kt-kernel/fp8_layerwise_transport.cpp:409-417 | a store of the writer into its slot disturbs nobody |
| TransportProofs.RunKeeps | kt-kernel/fp8_layerwise_transport.cpp:271-682 | every reachable state of every run, faulty ones included, satisfies the invariant |
| TransportTheorems.CopyLoopEntry | kt-kernel/fp8_layerwise_transport.cpp:562-588 | what the nested loop over experts and kinds leaves in each table entry |
| TransportTheorems.WaitReturnsTheLayer | kt-kernel/fp8_layerwise_transport.cpp:336-362 | when wait(e) returned, the rank's table held exactly what the writer produced for (e, expert, rank) and nothing else changed, and layer id, count and bytes are those of layer e |
| TransportTheorems.StepEffect | kt-kernel/fp8_layerwise_transport.cpp:276-326 | every step leaves the epoch cells monotone and the records untouched, advances the active epoch only when all ranks returned, and changes a table only by executing a copy |
| TransportTheorems.CopiedOnce | kt-kernel/fp8_layerwise_transport.cpp:617-645 | the copy executed at count expert * kinds + kind is that of (expert, kind) from the expert's slot, executing it raises the count by one, opening a layer resets it, nothing else moves it, and a finished layer has count experts * kinds: each (expert, kind) is copied once per rank |
| TransportTheorems.RunGrows | kt-kernel/fp8_layerwise_transport.cpp:276-361 | over whole runs the epoch cells, the products, the opened layers and the results only grow |
| TransportTheorems.TableStays | kt-kernel/fp8_layerwise_transport.cpp:326-361 | after a wait returned, the table stays as it is until the rank joins again |
| TransportTheorems.TableHoldsLayer | kt-kernel/fp8_layerwise_transport.cpp:326-361 | in every state between the return of a rank's wait for an epoch and the rank's next join, the rank's table holds what the writer produced for that epoch and rank, for every expert of the layer and every kind |
| TransportTheorems.WriterSlotUnused | kt-kernel/fp8_layerwise_transport.cpp:395-417 | while the writer runs on a slot no rank is copying from it or still has to, also on the first writes of a layer, which wait for no ack |
| TransportTheorems.AcceptedIsWhole | kt-kernel/fp8_layerwise_transport.cpp:622-633 | a consumer that saw a new sequence finds the epoch, the expert id and the bytes of that same publication at every later load |
| TransportTheorems.ReadyIsLastOrNext | kt-kernel/fp8_layerwise_transport.cpp:401-407 | a slot's ready sequence is the rank's last accepted one or its immediate successor, and at most one publication per slot is outstanding |
| TransportTheorems.EpochChain | kt-kernel/fp8_layerwise_transport.cpp:276-326 | wait_returned <= consumer_done <= join_epoch <= active and wait_returned <= producer_done <= active, all within one layer |
| TransportTheorems.NoLaterEpoch | kt-kernel/fp8_layerwise_transport.cpp:444-450 | no later epoch is opened once rank zero gave up on a layer, the region is poisoned with rank zero outside join, or a copy thread died in the layer, whatever further calls are made and whatever transports are constructed anew |
| TransportTheorems.FailedIsStuck | kt-kernel/fp8_layerwise_transport.cpp:444-450 | a failed call of rank zero is such a state |
| TransportTheorems.NewTransportGoesOn | kt-kernel/fp8_layerwise_transport.cpp:250-252 | the ready sequences a transport constructed anew loads are those its rank acknowledged last, and no copy of the rank is under way |
| TransportLatch.CallsAreRefused | kt-kernel/fp8_layerwise_transport.cpp:271-273 | in every run, a rank whose call failed is refused every further call but close, and the refused call changes nothing, because the failed call left the word non-zero |
| TransportLatch.LatchMoves | kt-kernel/fp8_layerwise_transport.cpp:174-186 | in every run of the whole transport the poison word moves only forwards, one stage at a time |
| TransportLatch.ReportsAgree | kt-kernel/fp8_layerwise_transport.cpp:156-186 | in runs of the whole transport all complete reports name one and the same failure |
| TransportProgress.GoodStepProgress | kt-kernel/fp8_layerwise_transport.cpp:271-451 | with matching calls and no faults every step keeps the stronger invariant and lowers the measure, unless it polls an unmet condition or is a store of the writer |
| TransportProgress.NeverStuck | kt-kernel/fp8_layerwise_transport.cpp:278-345 | with matching calls and no faults, until every rank returned from every layer some measure-lowering step is enabled |
| TransportProgress.PlanCompletes | kt-kernel/fp8_layerwise_transport.cpp:602-646 | with matching calls and no faults the initial measure bounds the working steps, nothing is poisoned, no call fails and no reachable state is stuck |
| TransportCompletion.FairRunFinishes | kt-kernel/fp8_layerwise_transport.cpp:271-451 | with matching calls and no faults, an infinite run that keeps scheduling every caller, copy thread and device with a step to take reaches a state in which every rank returned from every layer |
| TaskQueueProofs.LatchedIsFirst | kt-kernel/cpu_backend/task_queue.cpp:64-77 | the held exception is the first recorded since the last clear, and with none held every recorded one was followed by a clear |
| TaskQueueProofs.LinkNodes | kt-kernel/cpu_backend/task_queue.cpp:48-49 | linking completes the chain at the node its call holds as prev |
| TaskQueueProofs.LinkFound | kt-kernel/cpu_backend/task_queue.cpp:136-137 | a link the worker finds leads to the next node in tail-exchange order |
| TaskQueueProofs.StepKeeps | kt-kernel/cpu_backend/task_queue.cpp:27-168 | every step of enqueuers, worker, sync, sync_noexcept, record_exception and destructor keeps the invariant |
| TaskQueueProofs.RunKeeps | kt-kernel/cpu_backend/task_queue.cpp:20-168 | every reachable state satisfies the invariant |
| TaskQueueTheorems.RanIsAPrefix | kt-kernel/cpu_backend/task_queue.cpp:133-148 | the tasks run so far are a prefix of the enqueued ones in tail-exchange order |
| TaskQueueTheorems.RanInOrder | kt-kernel/cpu_backend/task_queue.cpp:133-148 | tasks run in publication order, each once |
| TaskQueueTheorems.NoneSkipped | kt-kernel/cpu_backend/task_queue.cpp:136-147 | a task ahead of one that ran has run |
| TaskQueueTheorems.FifoAcrossThreads | kt-kernel/cpu_backend/task_queue.cpp:43-54 | an enqueue that returned before another began has its task run first |
| TaskQueueTheorems.FreedOnce | kt-kernel/cpu_backend/task_queue.cpp:35-40 | no node is deleted twice, by worker or destructor |
| TaskQueueTheorems.TouchedIsNotFreed | kt-kernel/cpu_backend/task_queue.cpp:46-49 | the tail, a node held as prev, and the worker's current and next nodes are not deleted |
| TaskQueueTheorems.EveryNodeFreed | kt-kernel/cpu_backend/task_queue.cpp:27-41 | when the destructor ends every node ever allocated has been deleted |
| TaskQueueTheorems.PendingAccounting | kt-kernel/cpu_backend/task_queue.cpp:149-157 | pending equals counted minus finished tasks and never underflows |
| TaskQueueTheorems.DrainedMeansRan | kt-kernel/cpu_backend/task_queue.cpp:147-157 | when pending is zero every counted task has run and the worker is between tasks |
| TaskQueueTheorems.SyncWaited | kt-kernel/cpu_backend/task_queue.cpp:90-109 | a sync(n) that returned passed a moment with at most n tasks unfinished, one that threw a moment with none, unless it saw the queue being destroyed |
| TaskQueueTheorems.SyncNoexceptDrains | kt-kernel/cpu_backend/task_queue.cpp:122-131 | a sync_noexcept(n) with n positive that returned saw a moment with no exception held or with nothing unfinished, unless it saw the queue being destroyed; a mutex that fails at its look for an exception counts as one held |
| TaskQueueTheorems.SyncIsABarrier | kt-kernel/cpu_backend/task_queue.cpp:56-62 | after sync(0) every task whose enqueue had returned before the call has run |
| TaskQueueTheorems.TakenIsFirst | kt-kernel/cpu_backend/task_queue.cpp:105-108 | what a throwing sync takes is the first exception since the clear before it, and sync_noexcept takes none |
| TaskQueueTheorems.TakenOnce | kt-kernel/cpu_backend/task_queue.cpp:105-106 | no exception is taken twice |
| TaskQueueTheorems.FailuresReachTheLatch | kt-kernel/cpu_backend/task_queue.cpp:139-157 | once nothing is pending every failed task's exception was offered, and afterwards an exception is held or a sync took one |
| TaskQueueTheorems.OnlyFailuresOffered | kt-kernel/cpu_backend/task_queue.cpp:138-155 | the worker offers only exceptions of tasks that failed |
| TaskQueueTheorems.ThrownWasTaken | kt-kernel/cpu_backend/task_queue.cpp:90-109 | a throwing sync that returned threw what it took |
| TaskQueueTheorems.RethrownOnce | kt-kernel/cpu_backend/task_queue.cpp:90-131 | each rethrown exception is the first since the clear before it, no two calls rethrow the same, sync_noexcept none |
| NumaPool.RunKeeps | kt-kernel/cpu_backend/worker_pool.cpp:149-236 | flags, claims, calls and overshoots stay accounted for in every run of jobs |
| NumaPool.ReturnsAfterAll | kt-kernel/cpu_backend/worker_pool.cpp:143-147 | when do_work_stealing_job returns, every task of the job was computed exactly once by the job's own function, and exactly the participating threads called init and finalize, once each |
| NumaPool.ComputesInside | kt-kernel/cpu_backend/worker_pool.cpp:173-205 | a thread computes tasks only between its own init and its own finalize |
| NumaPool.ExactlyOnceCounts | kt-kernel/cpu_backend/worker_pool.cpp:188-198 | exactly once as a multiset: each id below task_num occurs once among the calls, no other id occurs |
| NumaPool.FieldsAreStable | kt-kernel/cpu_backend/worker_pool.cpp:152-167 | no thread is inside process_tasks, or may enter, while the job fields are rewritten; whoever is inside reads the running job's |
| NumaPool.DivisorZero | kt-kernel/cpu_backend/worker_pool.cpp:180-186 | the division by worker_count is by zero if and only if the restricted count is zero |
| NumaPool.ZeroWorkersFault | kt-kernel/cpu_backend/worker_pool.cpp:155-186 | a concrete run of a one-task job with restricted count zero that divides by zero |
| NumaPool.ZeroNeverReturns | kt-kernel/cpu_backend/worker_pool.cpp:155-186 | threads fault only in a job with tasks and a restricted count of zero, and such a job never returns |
| NumaPool.CurrBound | kt-kernel/cpu_backend/worker_pool.cpp:179-191 | curr_ ends at most worker_count - 1 past end_, because the owner of the last task does not overshoot |
| NumaJobs.EveryPairOnce | kt-kernel/cpu_backend/worker_pool.cpp:369-412 | after every do_numa_job each (subpool, task) pair was computed exactly once for that job, with init and finalize once per participating thread |
| NumaJobs.FuncIsStable | kt-kernel/cpu_backend/worker_pool.cpp:369-398 | the compute function is not read while do_numa_job replaces it |
| CpuInferTask.ResolveCaptureState | kt-kernel/cpu_backend/cpuinfer_task.h:17-22 | a stream counts as eager only on a successful query that says so; the hint never decides |
| CpuInferTask.MakeOwnedTask | kt-kernel/cpu_backend/cpuinfer_task.h:29-38 | a failed allocation destroys the arguments once; otherwise the task is live and owns them |
| CpuInferTask.DestroyTask | kt-kernel/cpu_backend/cpuinfer_task.h:63-70 | an owned task goes with its arguments, once; a legacy task is left alone |
| CpuInferTask.CancelGuard.Cancel | kt-kernel/cpu_backend/cpuinfer_task.h:82-86 | destroys the task only if the guard was active, and disarms it |
| CpuInferTask.GuardScope | kt-kernel/cpu_backend/cpuinfer_task.h:72-91 | any number of cancels and the guard's end destroy once; after release nothing is destroyed |
| CpuInfer.CPUInfer.Submit | kt-kernel/cpu_backend/cpuinfer.h:84-93 | the task runs once unless a queued error is rethrown first, and is destroyed once on every way out |
| CpuInfer.CPUInfer.SubmitWithCudaStream | kt-kernel/cpu_backend/cpuinfer.h:95-117 | the task is handed to the stream unrun, or destroyed once and the call throws: for queued errors, allocation and launch failures; exactly the one fresh callback argument object made joins the stream or the graph, and a failed launch deletes it |
| CpuInfer.CPUInfer.AllocateAndLaunch | kt-kernel/cpu_backend/cpuinfer.h:107-115 | the same from the allocation on, and the guard ends disarmed |
| CpuInfer.CPUInfer.Callback | kt-kernel/cpu_backend/cpuinfer.h:129-142 | the callback runs the task, records its exception, and frees task and arguments only for eager launches |
| CpuInfer.CPUInfer.RunEager | kt-kernel/cpu_backend/cpuinfer.h:129-142 | any eager callback, whichever stream gets to it first, runs its task once and everything it owned is gone afterwards, the others being untouched |
| CpuInfer.CPUInfer.Replay | kt-kernel/cpu_backend/cpuinfer.h:129-142 | a replayed callback runs its task and leaves everything alive, however often |
| CpuInfer.CPUInfer.DrainedMeansDestroyed | kt-kernel/cpu_backend/cpuinfer.h:84-142 | when all eager callbacks have run, every owned task handed over was destroyed exactly once, except those a graph recorded, which are untouched |
| CpuInfer.CPUInfer.SyncWithCudaStream | kt-kernel/cpu_backend/cpuinfer.h:205-238 | unless an earlier error or a failed allocation ends the call, one fresh argument object with this allowance is made, freed by its callback exactly when the stream is not capturing; a successful launch appends exactly it to the stream or the graph, a failed one deletes it and throws |
| CpuInfer.CPUInfer.SyncCallback | kt-kernel/cpu_backend/cpuinfer.h:152-161 | sync_ frees its arguments exactly when they cannot be replayed |
| CpuInfer.CPUInfer.RunSync | kt-kernel/cpu_backend/cpuinfer.h:152-161 | any eager sync callback leaves its stream with its arguments deleted |
| CpuInfer.CPUInfer.ReplaySync | kt-kernel/cpu_backend/cpuinfer.h:152-161 | a replayed sync callback keeps its arguments |
| SharedBuffer.RegionsDisjoint | kt-kernel/cpu_backend/shared_mem_buffer.cpp:25-31 | the regions of one request do not overlap and lie below its total |
| SharedBuffer.TotalSize | kt-kernel/cpu_backend/shared_mem_buffer.cpp:17-23 | the loop computes the end of the last region |
| SharedBuffer.UpdateBasePtr | kt-kernel/cpu_backend/shared_mem_buffer.cpp:25-31 | every pointer of the request holds the start of a region announced through it, and all hold the starts of their own regions if and only if no pointer is announced for two different starts |
| SharedBuffer.LargestIsLargest | kt-kernel/cpu_backend/shared_mem_buffer.cpp:51-66 | the capacity recurrence is the maximum of the totals asked for |
| SharedBuffer.SharedMemBuffer.Rebase | kt-kernel/cpu_backend/shared_mem_buffer.cpp:67-71 | in whatever order objects are visited, the loops leave every live pointer at the new base plus its offset if and only if no pointer is registered with two different starts |
| SharedBuffer.SharedMemBuffer.Alloc | kt-kernel/cpu_backend/shared_mem_buffer.cpp:49-75 | afterwards the capacity is the largest total ever asked for; if the buffer moved or all live pointers were right before, every live pointer is the base plus its prefix sum if and only if no pointer is registered with two different starts; only a failed growth exits |
| SharedBuffer.SharedMemBuffer.Dealloc | kt-kernel/cpu_backend/shared_mem_buffer.cpp:77-80 | the object's requests are gone, everything else is as before, and pointers that were right stay right |
| SharedBuffer.SharedMemBuffer.Serve | kt-kernel/cpu_backend/shared_mem_buffer.cpp:49-80 | any sequence of allocs and deallocs that announces new pointers exits exactly when a call asks for more than ever before and the allocator has no memory; otherwise the capacity is the largest total ever asked for, the live requests are those registered and not removed, and every live pointer is right |
| SharedBuffer.SharedMemBuffer.LiveRegion | kt-kernel/cpu_backend/shared_mem_buffer.cpp:49-80 | when the live pointers are right, each holds the base plus the sizes before it, and its whole region lies inside the buffer |
| SharedBuffer.NewPointersAgree | kt-kernel/cpu_backend/shared_mem_buffer.cpp:49-75 | a request of new, pairwise different pointers keeps the registered pointers free of two different starts |
| SharedBuffer.RegisteredTwice | kt-kernel/cpu_backend/shared_mem_buffer.cpp:49-75 | two concrete requests through one pointer, after which some live pointer is wrong wherever the buffer lies |
| Reduce.TreeSums | kt-kernel/operators/reduce.hpp:7-21 | the tree's top equals the plain sum of the column |
| Reduce.ReduceSum | kt-kernel/operators/reduce.hpp:7-21 | every column in the range becomes its tree, every other column of every row is untouched |
| Reduce.ReducedSums | kt-kernel/operators/reduce.hpp:7-21 | row 0 holds the sums of all rows' old values over the range |
| Reduce.AnyChunkOrder | kt-kernel/operators/reduce.hpp:7-21 | disjoint chunks that make up the range, reduced in any order, do what one reduction of the range does |
| MoE.CountTokens | kt-kernel/bench/bench_moe_torch.py:105-107 | the scatter and sum count the tokens that ask for each expert, and fail exactly on an id that is no expert |
| MoE.BlockOf | kt-kernel/bench/bench_moe_torch.py:109-118 | after any sorting permutation the rows between an expert's block bounds are exactly those with its id |
| MoE.RunExperts | kt-kernel/bench/bench_moe_torch.py:112-124 | the expert loop yields as many rows as tokens counted, and with distinct ids row j is what the expert of sorted position j makes of its token |
| MoE.RowsComplete | kt-kernel/bench/bench_moe_torch.py:105-107 | there are as many rows as slots if and only if no token repeats an id |
| MoE.RepeatedIdLosesARow | kt-kernel/bench/bench_moe_torch.py:105-107 | one token asking twice for one expert yields one row for two slots |
| MoE.RepeatedIdFails | kt-kernel/bench/bench_moe_torch.py:104-135 | at that input the grouped form fails, and not for a bad id or an ambiguous view, while the batched form succeeds |
| MoE.EmptyBatchFails | kt-kernel/bench/bench_moe_torch.py:126-135 | on the empty batch the grouped form fails at its view while both batched forms return no rows |
| MoE.Unsort | kt-kernel/bench/bench_moe_torch.py:127-128 | the inverse scatter succeeds exactly when there is a row per slot, and then undoes the sort |
| MoE.BatchedFormsAgree | kt-kernel/bench/bench_moe_torch.py:175-219 | the bmm and einsum forms are the same function |
| MoE.ExpertFloat | kt-kernel/bench/bench_moe_torch.py:104-135 | succeeds if and only if every id is an expert, no token repeats an id and there is a slot; then equals the batched forms for any sorting permutation |

## Left out

- The transport, the task queue and the worker pools are state machines on values, one shared access per step, rather than
  methods that update fields: their content is the interleaving of threads.
- Weak memory beyond the order of stores and loads, and 64-bit or 32-bit wrap-around of counters.
- Wall-clock time: timeouts are steps the environment takes, timings and the fold_progress hash are not kept.
- TransportTheorems.WaitReturnsTheLayer: speaks of the first wait per joined epoch; the timing, poison and error fields of
  the returned statistics are not modelled.
- TransportCompletion.FairRunFinishes: that the writer callback returns is part of the fairness assumed of rank zero's
  thread; how many stores it makes is not bounded.
- A transport constructed in the middle of a layer its rank had joined.
- CUDA initialisation failures of a copy thread, host pointer validation and the shared region's ABI checks.
- TaskQueue liveness: notify_one and notify_all are not modelled, since one condition variable serves worker and sync
  waiters. The empty critical section at the end of enqueue only serves the notification.
- TaskQueueTheorems.SyncWaited: a mutex fails to lock only at has_pending_exception, which reports that as a pending
  exception; at the other places locking does not fail.
- InNumaPool destruction, the sleeping of idle workers on their condition variable, thread naming, pinning and NUMA
  binding; the variant of do_numa_job compiled with USE_NUMA_JOB_DIRECT_WORK.
- An absent init or finalize function counts as one that does nothing.
- NumaPool.CurrBound: for a negative restricted count, where the caller works alone, the bound is end_ itself.
- CPUInfer: the queue's drain before a rethrow is a parameter; which stream a callback waits on, and the order within a
  stream, are not kept: the eager callbacks run in any order.
- The NUMA wrapper of SharedMemBuffer only selects a buffer.
- Reduce.ReduceSum: elements are integers, so the rounding of floating-point sums in tree order is not modelled.
- MoE.ExpertFloat: conversions between floating-point types are not modelled; which of two possible failures a repeated
  id raises first is a choice of the tensor library. The int8 variant is left out.
- Floating-point kernels, the GEC expert cache, Python bindings, build scripts, benchmarks' timing code.
