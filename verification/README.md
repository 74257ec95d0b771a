# An OpenCL host runtime, modelled and proved in Dafny

The repository is a host runtime for OpenCL 1.2: an application creates buffers, programs, kernels
and queues, enqueues commands, and the runtime executes them in order. This project models the
parts whose correctness depends on more than one function, and proves what they are for.

- **Intrusive lists** (`ListNodes`, `ListOps`, `SortSpec`, `ListSort`). The list macros work on heap
  nodes, links and all. The three bottom-up merge sorts overwrite `next` while both runs are still
  being read; they are shown to terminate with the same nodes in the one sorted and stable order.
- **Queue and object lifetimes** (`RefCounts`, `Runtime`, `MemBooks`, `MemCalls`, `EventBooks`,
  `EventCalls`, `KernelBooks`, `KernelCalls`, `Frames`, `Platform`, `Leaks`, `Debts`, `Tables`,
  `Claims`, `Launches`, `Storage`, `Arguments`, `Outcomes`, `EventOutcomes`, `Runs`, `Limits`,
  `ListTables`, `Host`). `Runtime.Step` is the effect of one API call on buffers, sub-buffers,
  mappings, queues, events, kernels, programs and argument storage. Theorems over all runs say what
  each reference count is made of, to the last reference and from the calls alone, and that nothing
  pending refers to a freed object. `Outcomes` and `EventOutcomes` say, call by call and by the fields of
  the objects named, which calls are carried out and what each of them does. `Host.Host` is the same runtime with fields updated in place, command and mapping lists
  linked through the list macros, and the loops of the source; its methods move the state as the
  functions that specify them, and its API calls keep the invariants.
- **Deferred against eager execution** (`SimBooks`, `SimCalls`, `Simulation`, `Deferral`,
  `Eager`, `FlatMemory`). Runs that mix blocking and deferred commands reach the memory that executing
  each call at once gives, for every device driver and every initial memory; so does the run that drains
  its queue after every call.
- **Where device operations reach** (`Rect`, `Extents`, `ExtentRuns`). In every lawful run each
  operation issued to a device names live buffers, and stays, on its queue's device, in their memory
  where that device is one of the queue's context; a sub-buffer's bytes are its parent's.
- **The locked counter** (`Counter`). Every interleaving of threads inside the retain and release macros.
- **Source assembly and comment removal** (`Comments`, `Literals`, `ProgramSource`), against a token
  grammar (section 6.4.9 of ISO C99), and against a comment remover that knows string and character
  literals.
- **Work-group split** (`NDRange`) and **BRIG code-section walk** (`Brig`).

Where the code does not meet a property, the code is kept, a concrete run or input shows the failure,
and the exact condition is proved for all inputs:

| property | holds exactly when | shown to fail |
|---|---|---|
| unmapping keeps the books | `Limits.UnmapIff` | `Limits.EarlyUnmapDangles` |
| no pending node names a freed event | `Limits.LastReleaseIff` | `Limits.GpuReleaseDangles` |
| a deferred write is the eager one, and stays in its buffer | `Deferral.WriteSimIff`, `ExtentRuns.DeferredWriteIff` | `Limits.StrayWriteIsOutside` |
| a map stays in its buffer | `ExtentRuns.MapStaysInsideIff` | `Limits.StrayMapIsNull` |
| writing a rectangle keeps the course of every event's status | `Limits.WriteRectIff` | `Limits.RewritesStatus` |
| a host store may be made while a transfer is pending | `FlatMemory.StoreCommutesIff` | `FlatMemory.OverwrittenSourceShows` |
| a buffer may be created from host memory while a transfer is pending | `FlatMemory.CreateCommutesIff` | `Limits.CreatedTooEarly`, `FlatMemory.CreatedTooEarlyShows` |
| the bytes of a rectangle are distinct | `Rect.AddressesDistinctIff` | `Rect.ZeroPitchOverlaps` |
| the basic device addresses the rectangle that was tested, and stays in the buffer | `Rect.DriverAddressIff`, `Rect.DriverFitsIff` | `Rect.DriverLeavesBuffer` |
| only comments are removed | `Literals.StripKeepsLiteralsIff` | `Literals.MarkerInLiteral` |
| the text fits the stack copy | `ProgramSource.CreateSource` | same contract |
| an accepted argument index is inside the arrays | `Host.Host.SetKernelArgument` | same contract |
| the work-group search finds the greatest common divisor | `NDRange.FindsGreatestIff` | `NDRange.MissesCommonDivisor` |
| the work-items cover the index space | `NDRange.CoversIffExact` | `NDRange.TruncatedSplitMisses` |
| the kernel with exactly the name asked for is found | `Brig.FindsExactNameIff` | `Brig.LongerNameShadows` |

Three readings of the code differ from its comments or from OpenCL, and the model follows the code.
The comment above the work-group search speaks of the largest multiple of the preferred multiple;
the loop looks for a halving of it that divides the global size. When offsets are given, dimensions
beyond `work_dim` get offset 1, not 0. The assertions inside the event macros are assignments, so each
macro writes the status field twice; the values one command writes still never increase.

How state is represented: an object's handle is its position in a sequence, and a freed object stays
there with `live` false, so a dangling reference can be expressed. `app` counts the references the
application owns, `leaked` those the runtime takes and never returns; `Claims`, `Leaks` and `Debts` say
from the calls of a run how many these are for every kind of object. Device callbacks are an uninterpreted total function on memory;
`log` is the sequence of those device calls that move or map memory or run kernels, and of the
application's own stores. An allocation is in it when it copies from host memory; other allocations,
frees and the first `map_mem`, which only says where a mapping will be, are not. A null device pointer
is 0. The application is assumed to name only objects it holds (`Runtime.Enabled`); everything it may
get wrong that the code checks for is in `Runtime.Accepted`. Theorems that depend on which devices a
context has take the contexts as a parameter (`Platform.OnPlatform`).

Check the project with `dafny verify dfyconfig.toml`.

## Model

| member | source | states |
|---|---|---|
| `SortSpec.SortCorrect` | include/utlist.h:102-156 | for every total preorder and every list the bottom-up passes end with exactly the same nodes, sorted, and equal elements in their original order |
| `SortSpec.SortedStableUnique` | include/utlist.h:102-156 | there is only one sorted and stable order of a list, so the three sorts agree whatever their links look like |
| `SortSpec.MergeSorted` | include/utlist.h:130-146 | merging two sorted runs, the left one winning ties, gives a sorted run |
| `SortSpec.MergeStable` | include/utlist.h:130-146 | the merge keeps the ties of the left run before those of the right run |
| `SortSpec.PassSorted` | include/utlist.h:120-148 | one pass over sorted runs of length w leaves sorted runs of length 2w |
| `SortSpec.BottomUpCorrect` | include/utlist.h:111-155 | from runs of any length w on, the doubling passes sort stably and keep the nodes |
| `ListSort.MergeRuns` | include/utlist.h:130-146 | the inner loop relinks two runs into their merge behind what is already out, though it overwrites links of nodes it has yet to pass |
| `ListSort.MergePass` | include/utlist.h:115-149 | one pass relinks the whole list into the specified pass, and makes at most one merge exactly when one suffices |
| `ListSort.LlSort` | include/utlist.h:102-156 | LL_SORT terminates; the result denotes the bottom-up order of the same nodes and ends in null |
| `ListSort.DlSort` | include/utlist.h:158-214 | DL_SORT gives the same order, prev inverse to next, the tail in the head's prev |
| `ListSort.CdlSort` | include/utlist.h:216-284 | CDL_SORT gives the same order and closes the ring in both directions |
| `ListOps.LlPrepend` | include/utlist.h:289-293 | refines putting a node in front |
| `ListOps.LlConcat` | include/utlist.h:295-305 | refines concatenation, empty lists included |
| `ListOps.LlAppend` | include/utlist.h:307-318 | refines appending a node, the empty list included |
| `ListOps.LlDelete` | include/utlist.h:320-334 | refines removing the node; a node that is not on the list leaves it unchanged |
| `ListOps.DlPrepend` | include/utlist.h:400-410 | refines putting a node in front and keeps the tail in the head's prev |
| `ListOps.DlAppend` | include/utlist.h:412-424 | refines appending and keeps the tail in the head's prev |
| `ListOps.DlConcat` | include/utlist.h:426-439 | refines concatenation of two lists and keeps the tail in the head's prev |
| `ListOps.DlDelete` | include/utlist.h:441-457 | refines removal of the k-th node, the head, the tail and the only node included |
| `ListOps.CdlPrepend` | include/utlist.h:474-486 | refines putting a node in front of a ring |
| `ListOps.CdlDelete` | include/utlist.h:488-497 | refines removal of the k-th node of a ring |
| `MemCalls.MemStep` | lib/CL/clReleaseMemObject.c:38-84 | every call keeps the books of memory objects: counts, map counts, mapping lists, parents and pending map commands |
| `Runs.BufferCount` | lib/CL/clReleaseMemObject.c:38-84 | in every run a live buffer's count is one and the application's retains less its releases, pending nodes, live sub-buffers, live mappings, one for each device of its context after the first, and one for each failed map of it; a freed buffer has none of these |
| `Runs.SingleDeviceCount` | lib/CL/clReleaseMemObject.c:38-84 | with a single device and no failed map the count is exactly one and retains less releases, pending nodes, live sub-buffers and live mappings |
| `Runs.HeldFromCalls` | lib/CL/pocl_cl.h:285-305 | in every run that names only objects it holds, the references the application holds to any object are one and its retains less its releases; no other call moves them |
| `Claims.StepClaims` | lib/CL/clEnqueueReadBuffer.c:93-115 | one call changes the application's references to any object by its own retain or release alone; the references a blocking command takes are given back |
| `Leaks.LeakedExactly` | lib/CL/clCreateBuffer.c:158-161 | in every run the references a buffer keeps for good are one for each further device of its context and one for each map of it that failed (lib/CL/clEnqueueMapBuffer.c:73, 111-115) |
| `Leaks.RunClean` | lib/CL/clCreateBuffer.c:129-131 | in every run a buffer made by clCreateBuffer counted its mappings from zero, and programs keep no reference for good |
| `Runs.NoDanglingBuffer` | lib/CL/clFinish.c:44-137 | in every reachable state no pending command, live mapping or live sub-buffer refers to a freed buffer |
| `Runs.LaunchesHoldBuffers` | lib/CL/clEnqueueNDRangeKernel.c:334-365 | in every reachable state a pending launch retains each buffer exactly as often as its set global pointer arguments name it, told argument by argument, and each buffer so named is alive |
| `Launches.LaunchesStep` | lib/CL/clEnqueueNDRangeKernel.c:334-365 | every call keeps this: a launch starts with it, and no call changes what a pending launch names or holds |
| `Runs.ArgumentStorage` | lib/CL/clFinish.c:129-134 | in every reachable state a block of argument storage is in use exactly while the argument of the kernel or pending launch it was allocated for points to it: a drain frees all copies of a launch, a new value frees the old one's block, and nothing else is freed or lost |
| `Storage.StepInUse` | lib/CL/clSetKernelArg.c:54-79 | every call loses no block of argument storage |
| `Runs.MapCount` | lib/CL/clEnqueueMapBuffer.c:117-181 | in every reachable state a buffer's mapping list has exactly its live mappings; for buffers made by clCreateBuffer map_count plus pending map commands is their number, and with none pending map_count is the number of live mappings |
| `Limits.UnmapIff` | lib/CL/clEnqueueUnmapMemObject.c:50-105 | an accepted unmap keeps the books exactly when the map command of the mapping it finds has run |
| `Limits.EarlyUnmapDangles` | lib/CL/clEnqueueUnmapMemObject.c:103-105 | after a lawful run of four calls an unmap the application may make leaves a pending map command on a freed buffer |
| `EventCalls.EventStep` | lib/CL/clReleaseEvent.c:29-46 | every call, a rectangle write that is handed an existing event excepted, keeps the books of events and queues: counts, which nodes name which events, and the order of completion |
| `Runs.NoDanglingEvent` | lib/CL/clReleaseEvent.c:33-43 | after every orderly run (the event variable passed to a rectangle write names no event) no pending node on a non-GPU queue names a freed event, and no freed queue has pending nodes |
| `Runs.EventStatus` | lib/CL/pocl_cl.h:670-715 | after every orderly run (the event variable passed to a rectangle write names no event) an event is QUEUED while its node is pending and COMPLETE after, every status it ever had is no larger than the one before, and completed events form a prefix of enqueue order |
| `EventOutcomes.EventOutcome` | lib/CL/clEnqueueReadBuffer.c:74-134 | every command that is carried out makes exactly the event asked for, on its queue, with one reference; carried out at once its status has gone through the whole course, otherwise it is queued and named by the node put last on the queue |
| `EventOutcomes.DrainTells` | lib/CL/clFinish.c:42-145 | a drain takes the event of every pending command through exactly the course of its kind |
| `Limits.WriteRectIff` | lib/CL/clEnqueueWriteBufferRect.c:96-106 | a rectangle write keeps the books of events, the course of every status among them, exactly when the caller's event variable names no event |
| `Limits.RewritesStatus` | lib/CL/clEnqueueWriteBufferRect.c:96-106 | a lawful run of five calls (queue, buffer, marker, finish, rectangle write with the marker's event) after which a completed event went back to QUEUED and ran again |
| `Runs.WaitReturnsComplete` | lib/CL/clWaitForEvents.c:32-36 | after every orderly run clWaitForEvents returns only with every listed event COMPLETE |
| `Runs.QueueCount` | lib/CL/clEnqueueNDRangeKernel.c:331 | after every orderly run a live queue's count is exactly one and the application's retains less its releases, live events, one for each launch ever made on it and, on a GPU, one for each of its events freed (lib/CL/clReleaseEvent.c:37-40); a freed queue has none of these, so a queue with a launch is never freed |
| `Runs.EventCount` | lib/CL/clReleaseEvent.c:33-43 | after every orderly run a live event's count is exactly one and the application's retains less its releases, and a freed event's is used up |
| `EventBooks.FinishCompletes` | lib/CL/clFinish.c:39-157 | draining a queue completes every event of that queue |
| `Limits.LastReleaseIff` | lib/CL/clReleaseEvent.c:33-43 | after the last release of an event a node still names it exactly when its queue is on a GPU and its command is pending |
| `Limits.GpuReleaseDangles` | lib/CL/clReleaseEvent.c:33-43 | a lawful run of three calls that leaves a pending node with a freed event on a GPU queue |
| `KernelCalls.KernelStep` | lib/CL/clReleaseKernel.c:29-60 | every call keeps the books of kernels and programs: counts, and each live kernel once on its program's list |
| `Runs.ProgramCount` | lib/CL/clCreateKernel.c:519-548 | in every reachable state a program's count is exactly application references plus the length of its kernel list, which holds exactly its live kernels, each once |
| `KernelBooks.DyingProgramHasNoKernels` | lib/CL/clReleaseProgram.c:38-62 | when the last reference to a program goes its kernel list is empty, so the loop clearing `k->program` never runs its body |
| `Runs.KernelCount` | lib/CL/clFinish.c:87-137 | after every lawful run a live kernel's count is exactly one and the application's retains less its releases, its launches pending on other devices than GPUs, and every launch of it ever made on a GPU; a freed kernel has none of these |
| `Debts.RunCharges` | lib/CL/clFinish.c:87-137 | for every run, lawful or not: the references kept for good to a queue grow by its launches and, on a GPU, the last releases of its events, those to a kernel by its launches on GPUs, the pending ones counted in, and none is kept to an event |
| `Runs.RunBooks` | lib/CL/clFinish.c:30-160 | every lawful run keeps the books of buffers, kernels and programs, and what pending commands depend on |
| `Runs.RunEvents` | lib/CL/clFinish.c:30-160 | every orderly run keeps the books of events and queues |
| `SimCalls.SnapshotCopies` | lib/CL/clEnqueueNDRangeKernel.c:299-327 | the argument snapshot loads the same values and lives in blocks owned by the node alone |
| `SimCalls.KernelSim` | lib/CL/clEnqueueNDRangeKernel.c:297-369 | a launch owes exactly one device run, with the argument values set when it was enqueued |
| `SimCalls.SetArgSim` | lib/CL/clSetKernelArg.c:50-95 | setting an argument changes nothing that a pending launch will run with |
| `Arguments.SetStores` | lib/CL/clSetKernelArg.c:50-95 | an accepted call for an index among the arguments leaves exactly the size and value given in that argument, and every other argument of every kernel as it was |
| `Arguments.SetRefused` | lib/CL/clSetKernelArg.c:41-42 | an index behind the one after the last argument changes nothing |
| `Arguments.RunKeepsArgument` | lib/CL/clSetKernelArg.c:50-95 | an argument keeps its size and value through every run that does not set it |
| `Arguments.LaunchRuns` | lib/CL/clEnqueueNDRangeKernel.c:297-369 | a launch is carried out exactly when its arguments pass and queue and kernel share a context; it then owes one run over the range given with the values all arguments have at that moment, and any other launch changes nothing |
| `Arguments.LastValueRuns` | lib/CL/clSetKernelArg.c:72-74 | set an argument, go on in any way that does not set it again, launch: the device runs the kernel with the size and value that were set |
| `Deferral.SimStep` | lib/CL/clEnqueueReadBuffer.c:42-137 | every call but an unmap, and but a host store and the creation of a buffer, which reach memory ahead of what is pending, extends issued plus owed operations by exactly its eager operations when all commands are on one queue |
| `Deferral.SimOkStep` | lib/CL/clEnqueueNDRangeKernel.c:299-327 | every call on whatever queue, unmaps included, keeps what pending commands depend on: argument blocks of their own, existing mappings and buffers, distinct nodes |
| `Deferral.WriteSimIff` | lib/CL/clEnqueueWriteBuffer.c:90-130 | for a deferred write this holds exactly when the device pointer at the device's index equals the one at its dev_id |
| `Deferral.MemoryStep` | lib/CL/clEnqueueCopyBuffer.c:79-99 | one call moves memory with the pending list folded over it exactly as eager memory moves; a host store, and the copies made for a buffer created from host memory (lib/CL/clCreateBuffer.c:158-169), when they commute with what is pending |
| `Deferral.DeferredIsEager` | lib/CL/clFinish.c:39-157 | for every run on one queue whose stores and initial copies commute with what is pending, every driver and every memory, memory with the pending list folded over it equals eager memory |
| `Deferral.FinishReachesEager` | lib/CL/clFinish.c:30-160 | after clFinish the memory of such a run is the eager one |
| `Outcomes.ReadOutcome` | lib/CL/clEnqueueReadBuffer.c:42-137 | a read is carried out exactly when the contexts agree and the stretch is in the buffer: what is issued and owed on its queue grows by exactly this read, whatever is pending elsewhere; otherwise nothing changes |
| `Outcomes.WriteOutcome` | lib/CL/clEnqueueWriteBuffer.c:42-133 | the same for a write; a deferred one goes through the pointer at the device's position in the context |
| `Outcomes.CopyOutcome` | lib/CL/clEnqueueCopyBuffer.c:43-102 | a copy is owed exactly when queue and both buffers share a context and both stretches lie in their buffers; otherwise nothing changes |
| `Outcomes.ReadRectOutcome` | lib/CL/clEnqueueReadBufferRect.c:52-123 | a rectangle is read at once exactly when the contexts agree and each of its bytes is in the buffer; otherwise nothing changes |
| `Outcomes.WriteRectOutcome` | lib/CL/clEnqueueWriteBufferRect.c:51-111 | the same for a rectangle written |
| `Outcomes.CopyRectOutcome` | lib/CL/clEnqueueCopyBufferRect.c:50-130 | a rectangle is copied at once exactly when queue and both buffers share a context and each byte is in its buffer on both sides; otherwise nothing changes |
| `Outcomes.FinishOutcome` | lib/CL/clFinish.c:39-157 | a drain issues what the queue owes, in order, and nothing else; it is left with nothing pending, and every other queue with what it had |
| `Outcomes.WaitOutcome` | lib/CL/clWaitForEvents.c:32-36 | waiting drains exactly the queues of the listed events |
| `Outcomes.ReleaseQueueOutcome` | lib/CL/clReleaseCommandQueue.c:30-47 | the release of a queue drains it, takes one off its count and frees it exactly when that was the last |
| `Outcomes.ReleaseEventOutcome` | lib/CL/clReleaseEvent.c:33-43 | the release of an event still referred to changes its counters alone; the last one frees it and drains its queue, except on a GPU |
| `Outcomes.MapOutcome` | lib/CL/clEnqueueMapBuffer.c:49-181 | a map is carried out exactly when the contexts agree and the stretch is in the buffer; with a place found it adds one mapping of that stretch at that place and one device map, without one only the reference taken stays |
| `Outcomes.UnmapOutcome` | lib/CL/clEnqueueUnmapMemObject.c:40-107 | an unmap takes the first mapping at the pointer off the list, leaves the rest in order, gives back one count and one reference, and tells the device of exactly that mapping when there is something to flush |
| `Outcomes.UnmapRefused` | lib/CL/clEnqueueUnmapMemObject.c:50-66 | without a mapping at the pointer nothing changes |
| `Outcomes.CreateQueueOutcome` | lib/CL/clCreateCommandQueue.c:66-71 | a new queue has the context and device given, nothing pending and one reference; all else stays |
| `Outcomes.CreateBufferOutcome` | lib/CL/clCreateBuffer.c:126-177 | a buffer is made exactly for a size above zero, with that size, the addresses of the devices, no parent and no mapping, one reference for each device, and one copy to each device when it is created from host memory |
| `Outcomes.CreateSubBufferOutcome` | lib/CL/clCreateSubBuffer.c:37-158 | a sub-buffer is made exactly of a buffer that is none, for a region above zero within it; it has the region's size, the parent's context, its pointers plus the origin, no mapping, and a reference to the parent; all else stays |
| `Outcomes.SubBufferTransfers` | lib/CL/clCreateSubBuffer.c:80 | a read through a new sub-buffer is carried out exactly when it ends within the region's size, and then reads the parent's bytes behind the origin |
| `Outcomes.CreateProgramOutcome` | lib/CL/clCreateProgramWithSource.c:163-174 | a new program has the context given, no kernel and one reference |
| `Outcomes.CreateKernelOutcome` | lib/CL/clCreateKernel.c:519-548 | a new kernel has its program and context, its pointer and local flags, no argument set, locals with their sizes, one reference, and is first on its program's list |
| `Eager.StepAlike` | lib/CL/clFinish.c:39-157 | two states that differ only in what is pending, executed or counted stay so under every call but an unmap: what calls do to memory does not depend on how much has been drained |
| `Eager.EagerRunLog` | lib/CL/clFinish.c:30-160 | the run that drains its queue after every call issues exactly the eager operations of the deferring run, in order |
| `Eager.DrainOnceOrAlways` | lib/CL/clFinish.c:30-160 | for every driver and memory, draining once at the end and draining after every call leave the same memory |
| `Limits.StrayWriteIsOutside` | lib/CL/clEnqueueWriteBuffer.c:111-130 | a lawful run of three calls whose deferred write goes through the null pointer of a device outside the context: it is outside its buffer, and draining issues another operation than eager execution |
| `Limits.CreatedTooEarly` | lib/CL/clCreateBuffer.c:158-169 | a lawful run of four calls in which a buffer is filled from host memory before the pending read that eager execution does first |
| `FlatMemory.StoreCommutesIff` | lib/CL/devices/basic/basic.c:243-260 | a host store commutes with a pending byte copy for every memory exactly when each byte copied has both ends outside the store, or the store puts the same byte at both ends |
| `FlatMemory.BasicDeviceReachesEager` | lib/CL/devices/basic/basic.c:205-260 | on the basic device, with kernels that keep to their footprints, a run whose stores and initial copies are clear of what is pending ends with the eager memory |
| `FlatMemory.TransferMoves` | lib/CL/devices/basic/basic.c:205-260 | each transfer of the basic device brings every byte from where the call says to where it says and changes no other byte |
| `FlatMemory.StoreMoves` | lib/CL/devices/basic/basic.c:252-260 | a store of the application puts its bytes where it says and changes no other byte |
| `FlatMemory.OverwrittenSourceShows` | lib/CL/devices/basic/basic.c:252-260 | a store that does not agree: overwriting the source of a pending write changes what the device receives |
| `FlatMemory.CreateCommutesIff` | lib/CL/devices/basic/basic.c:212-221 | where the new memory has nothing to do with a pending transfer, the initial copy commutes with it for every memory exactly when the transfer brings nothing new to the bytes copied from |
| `FlatMemory.CreatedTooEarlyShows` | lib/CL/devices/basic/basic.c:212-221 | an initial copy that is not clear: the new buffer has the byte a pending read was about to replace |
| `ListTables.CommandLists.Append` | include/utlist.h:307-318 | LL_APPEND on one queue's root appends the command to that queue's list and leaves every other list as it was |
| `ListTables.MappingLists.Append` | include/utlist.h:412-424 | DL_APPEND on one buffer's list, the others unchanged |
| `ListTables.MappingLists.Delete` | include/utlist.h:441-457 | DL_DELETE of the k-th mapping of one buffer, the others unchanged |
| `Host.Host.FinishQueue` | lib/CL/clFinish.c:30-160 | walking the linked list node by node and then freeing it moves the state as the in-order drain |
| `Host.Host.ExecuteNode` | lib/CL/clFinish.c:42-145 | one round of the drain, per command type, with the events, references and argument blocks it gives back |
| `Host.Host.WaitForEventList` | lib/CL/clWaitForEvents.c:32-36 | the loop that drains each event's queue |
| `Host.Host.CreateBufferObject` | lib/CL/clCreateBuffer.c:148-177 | the two loops leave a pointer exactly at the dev_ids of the context's devices and null elsewhere, take one reference per further device, and copy from host memory once per device when asked to |
| `Host.Host.CreateSubBufferObject` | lib/CL/clCreateSubBuffer.c:56-158 | the region test, and the loop that shifts the parent's pointers for the context's devices and leaves null elsewhere |
| `Host.Host.ReleaseMemObject` | lib/CL/clReleaseMemObject.c:38-84 | decrement, parent's decrement and the walk along the linked list that frees the mappings, as specified |
| `Host.Host.ReleaseProgramObject` | lib/CL/clReleaseProgram.c:38-85 | decrement and the loop over the kernel list, as specified |
| `Host.Host.ReleaseKernelObject` | lib/CL/clReleaseKernel.c:29-60 | the walk that unlinks the kernel from its program's list, then the program's release |
| `Host.Host.ReleaseCommandQueue` | lib/CL/clReleaseCommandQueue.c:27-49 | afterwards nothing is pending on the queue and each of its events is complete; all invariants are kept |
| `Host.Host.ReleaseEventObject` | lib/CL/clReleaseEvent.c:29-46 | the last release frees the event, and a pending node still names it exactly when its queue is on a GPU and its command was pending; all invariants are kept |
| `Host.Host.EnqueueReadBuffer` | lib/CL/clEnqueueReadBuffer.c:42-137 | invariants are kept; a blocking read leaves nothing pending, a deferred one issues nothing, and when all commands are on this queue issued plus pending operations grow by exactly this read, or by nothing when it is refused |
| `Host.Host.EnqueueWriteBuffer` | lib/CL/clEnqueueWriteBuffer.c:42-133 | the same for a write, when all commands are on this queue and the two device pointers agree |
| `Host.Host.EnqueueMapBuffer` | lib/CL/clEnqueueMapBuffer.c:49-181 | invariants are kept; a map that finds a place adds exactly the new mapping and, when all commands are on this queue, one operation; a blocking one leaves nothing pending |
| `Host.Host.EnqueueUnmapMemObject` | lib/CL/clEnqueueUnmapMemObject.c:40-107 | invariants are kept; it succeeds exactly when a mapping of the buffer is at the pointer; the walk finds the first one and DL_DELETE takes it out |
| `Host.Host.LaunchKernel` | lib/CL/clEnqueueNDRangeKernel.c:297-369 | snapshot, retention and append of a launch |
| `Host.Host.CopyArguments` | lib/CL/clEnqueueNDRangeKernel.c:299-327 | the copying loop allocates the specified snapshot |
| `Host.Host.CollectBuffers` | lib/CL/clEnqueueNDRangeKernel.c:334-365 | the loop collects the buffers of pointer arguments, local and null ones left out |
| `Host.Host.SetKernelArgument` | lib/CL/clSetKernelArg.c:41-98 | refused exactly for an index behind the one after the last argument; outside its arrays exactly for that index when a value is given or the kernel has no locals; otherwise the stored value is replaced |
| `Rect.CornerFitsIff` | lib/CL/clEnqueueReadBufferRect.c:62-66 | the corner test accepts a rectangle exactly when every byte address of its region is below the buffer size, empty regions included |
| `Rect.AddressesDistinctIff` | lib/CL/clEnqueueCopyBufferRect.c:60-69 | the bytes of a non-empty rectangle have distinct addresses exactly when rows are apart and slices are apart; whole rows per slice are assumed only where there are several rows and several slices |
| `Rect.ZeroPitchOverlaps` | lib/CL/clEnqueueWriteBufferRect.c:61-68 | pitch zero is taken as it is: two rows are accepted by a buffer that holds one, and coincide |
| `Rect.InterleavedSlices` | lib/CL/clEnqueueCopyBufferRect.c:60-69 | without whole rows bytes can be distinct though slices interleave, so that assumption is needed |
| `Rect.DriverAddressIff` | lib/CL/devices/basic/basic.c:462-477 | the basic device's address of a byte is the tested one exactly when the rectangle starts in the first slice, or the slice pitch is 0, or the row pitch is 1 |
| `Rect.DriverFitsIff` | lib/CL/devices/basic/basic.c:462-477 | the basic device keeps a non-empty rectangle in a buffer of the given size exactly when its own address of the far corner, the tested one plus slice pitch times first slice times (row pitch - 1), is below the size |
| `Rect.DriverLeavesBuffer` | lib/CL/devices/basic/basic.c:462-477 | an accepted rectangle of one byte in the second slice is addressed behind the buffer |
| `Extents.InBuffer` | lib/CL/clCreateSubBuffer.c:154-155 | a stretch of a buffer or sub-buffer, at its address on a device of its context, lies in what that device allocated for its root |
| `Extents.InRect` | lib/CL/clEnqueueCopyBufferRect.c:60-69 | a rectangle that passes the corner test lies, byte by byte, in what the device allocated for the root of its one buffer |
| `Extents.FinishIssuesOk` | lib/CL/clFinish.c:39-157 | the buffers each operation of a drain names, and their roots, are alive at that moment, and on a queue whose device is in its context the operation stays, on that device, in their memory |
| `ExtentRuns.SubBufferSafe` | lib/CL/clCreateSubBuffer.c:56-66 | the region test makes a new sub-buffer a stretch of its parent |
| `ExtentRuns.SafeStep` | lib/CL/clEnqueueCopyBuffer.c:43-102 | every call on a platform keeps pending commands, mappings and sub-buffers inside their buffers' memory, a deferred write when its pointers agree |
| `ExtentRuns.DeferredWriteIff` | lib/CL/clEnqueueWriteBuffer.c:111-130 | where allocations are apart and the queue's device is in its context, a deferred write of at least one byte stays in its buffer exactly when the pointer at the device's index is the one at its dev_id |
| `ExtentRuns.CallIssuesOk` | lib/CL/clEnqueueReadBufferRect.c:88-123 | the buffers each operation of a call names are alive, whether it is issued at once or through a drain, and on a queue whose device is in its context the operation stays in their memory |
| `ExtentRuns.StepLog` | lib/CL/clFinish.c:39-157 | the operations the two theorems speak of are exactly what a call adds to the log |
| `ExtentRuns.OperationsStayInBuffers` | lib/CL/clFinish.c:39-157 | in every lawful run on a platform whose deferred writes take agreeing pointers: each operation issued named buffers whose roots were alive then; and each read, write, copy, rectangle, map and unmap on a queue whose device is in its context stayed, on that device, in their memory; and so will each pending one |
| `ExtentRuns.MapStaysInsideIff` | lib/CL/clEnqueueMapBuffer.c:99-109 | clCreateCommandQueue makes a queue even for a device that is not in the context (lib/CL/clCreateCommandQueue.c:50-57); a map on any queue is at an address in its buffer exactly when the queue's device is one of its context |
| `Limits.StrayMapIsNull` | lib/CL/clCreateCommandQueue.c:50-57 | a lawful run of three calls on a platform in which such a queue maps through a null pointer |
| `ExtentRuns.SubBuffersInParents` | lib/CL/clCreateSubBuffer.c:138-156 | in every run each sub-buffer is its parent's bytes at one shifted address on the devices of the context, and has no address on the others |
| `Counter.StepInv` | lib/CL/pocl_cl.h:285-305 | each lock, load, store and unlock step keeps the count equal to the references held by all threads |
| `Counter.NothingLost` | lib/CL/pocl_cl.h:285-305 | no update is lost whatever the interleaving: the count has moved by every retain and release entered but the one that has yet to store, and each thread holds what it started with, retained and was given, less what it released and gave away |
| `Counter.DestroyedOnce` | lib/CL/pocl_cl.h:285-305 | for every interleaving at most one release sees zero, exactly one once the count is zero, and after it only its own unlock is left |
| `Comments.TokensRun` | lib/CL/clCreateProgramWithSource.c:106-159 | the automaton on the printed text of any token sequence writes the code of the tokens, line comments becoming a newline |
| `Comments.LexPrints` | lib/CL/clCreateProgramWithSource.c:106-159 | every text is the printed form of well-formed tokens and an unfinished tail |
| `Comments.LexOfPrint` | lib/CL/clCreateProgramWithSource.c:106-159 | cutting a printed token sequence gives it back, so a text has one reading |
| `Comments.StripIsCode` | lib/CL/clCreateProgramWithSource.c:106-159 | on every text the automaton writes exactly the code of its tokens |
| `Comments.StripIdempotent` | lib/CL/clCreateProgramWithSource.c:105-158 | the output never has a comment opener nor ends in a slash, and removing comments twice is removing them once |
| `Comments.CleanUnchanged` | lib/CL/clCreateProgramWithSource.c:117-137 | a text without openers and final slash goes through unchanged |
| `Literals.StripKeepsLiteralsIff` | lib/CL/clCreateProgramWithSource.c:110-158 | for every text the automaton writes what a literal-aware comment remover writes exactly when no literal has a comment opener in it and no literal left open ends in a slash |
| `Literals.MarkerInLiteral` | lib/CL/clCreateProgramWithSource.c:117-137 | a comment marker inside a string literal is removed too |
| `ProgramSource.TotalSize` | lib/CL/clCreateProgramWithSource.c:58-73 | the first pass fails exactly when a string is missing, and otherwise gives the length of the concatenation |
| `ProgramSource.ConcatAssembles` | lib/CL/clCreateProgramWithSource.c:75-104 | the assembled text can be cut into the used parts of the strings in order: as many characters as the length given says when it is not zero, otherwise those before the string's zero byte |
| `ProgramSource.OneAssembly` | lib/CL/clCreateProgramWithSource.c:75-104 | there is only one such text |
| `ProgramSource.CStringIs` | lib/CL/clCreateProgramWithSource.c:107-111 | the part of a text that is copied is its longest prefix without a zero byte that a zero byte or the end follows |
| `ProgramSource.CopyPieces` | lib/CL/clCreateProgramWithSource.c:75-104 | the second pass fills size + 1 bytes with the concatenation and a zero byte |
| `ProgramSource.RemoveComments` | lib/CL/clCreateProgramWithSource.c:105-158 | the loop writes the comment-free text; write index plus a held-back slash never passes the read index |
| `ProgramSource.CreateSource` | lib/CL/clCreateProgramWithSource.c:43-159 | an error exactly for no strings or a missing one; for the text that assembles the strings and its part up to the first zero byte, the stack copy overrun exactly when that part has 65536 characters or more; otherwise that part without comments |
| `NDRange.ChooseLocal` | lib/CL/clEnqueueNDRangeKernel.c:112-138 | the halving loop ends with the first of m, m/2, m/4, ... that divides global_x and does not exceed it, or 1 |
| `NDRange.FirstFitLargest` | lib/CL/clEnqueueNDRangeKernel.c:128-137 | that size is the largest among those tried that fit, and the only such choice |
| `NDRange.GreatestCommonDivisor` | lib/CL/clEnqueueNDRangeKernel.c:121-137 | for a power of two m it is the greatest common divisor of m and global_x |
| `NDRange.FindsGreatestIff` | lib/CL/clEnqueueNDRangeKernel.c:121-137 | for every m: the search finds the greatest common divisor for all global sizes exactly when the non-zero halvings of m are the divisors of m |
| `NDRange.MissesCommonDivisor` | lib/CL/clEnqueueNDRangeKernel.c:121-137 | with m = 6 and global size 4 the common divisor 2 is missed |
| `NDRange.CheckLocal` | lib/CL/clEnqueueNDRangeKernel.c:145-163 | which error, division by zero or acceptance the local size leads to, per device type, in both directions |
| `NDRange.Prepare` | lib/CL/clEnqueueNDRangeKernel.c:77-163 | for the local size given or chosen by the search, each error, division by zero and launch in both directions; a launch records, dimension by dimension, the sizes and offsets it was given and the split of the space (lib/CL/clEnqueueNDRangeKernel.c:276-290), exact when no local size was given or on a CPU |
| `NDRange.WorkItemInBox` | lib/kernel/get_global_id.c:40-50 | each work-item's global id lies in the box from offset to offset plus global size, and determines group and item |
| `NDRange.PointIsWorkItem` | lib/kernel/get_global_id.c:40-50 | when local sizes divide global sizes each point of the box is the id of a work-item |
| `NDRange.CoversIffExact` | lib/CL/clEnqueueNDRangeKernel.c:276-290 | the work-items cover the box exactly when local sizes divide global sizes |
| `NDRange.TruncatedSplitMisses` | lib/CL/clEnqueueNDRangeKernel.c:276-290 | ten points in groups of four lose their last two |
| `Brig.FindSymbolOffset` | lib/CL/clCreateKernel.c:40-84 | on a tiled section the walk visits exactly the entry boundaries in order and returns the first kernel whose name starts with the symbol, its offset and inArgCount, or an error exactly when there is none |
| `Brig.Compare` | lib/CL/clCreateKernel.c:71 | the comparison stops inside the data section and holds exactly for names that start with the symbol |
| `Brig.AssembledIsTiled` | lib/CL/pocl_cl.h:737-774 | a section assembled from well-formed entries is tiled, and its boundaries are where the entries were put |
| `Brig.ReadsBack` | lib/CL/pocl_cl.h:737-774 | numbers are read as they were stored, lowest byte first, wherever they stand |
| `Brig.SearchFindsEntry` | lib/CL/clCreateKernel.c:62-83 | on every assembled section the outcome is the first entry that, read on its own, is a kernel with a matching name, or none exactly when no entry is |
| `Brig.FirstMatchUnique` | lib/CL/clCreateKernel.c:62-83 | the outcome of the search is determined |
| `Brig.FindsExactNameIff` | lib/CL/clCreateKernel.c:71-77 | a kernel whose stored name, by its length and bytes, is exactly the one asked for is the one reported if and only if no earlier kernel's name starts with it |
| `Brig.LongerNameShadows` | lib/CL/clCreateKernel.c:71-77 | asking for "a" reports the kernel "ab" stored before it |
| `Brig.UnpaddedName` | lib/CL/pocl_cl.h:770-773 | names are told by their stored length: one whose bytes are followed at once by the next length counts too |

## Left out

- HSA calls, ELF reading, compiler scripts, temporary directories and dlopen: foreign code and I/O.
- Device driver bodies: a driver is any total deterministic function on memory; only the byte copies of the basic device are spelled out.
- Images: they run or queue outside the in-order discipline.
- clEnqueueFillBuffer, clGet*Info, clRetain* wrappers and unimplemented stubs: no further property.
- The string search for kernel signatures in clCreateKernel: no specification to prove it against.
- Context reference counts: only ever taken and decremented, nothing depends on them.
- Failing allocations: every malloc succeeds.
- Integer widths: sizes, counts, offsets and the run length of the sorts are unbounded; wrap-around of size_t, of map_count and of `insize` is not modelled.
- Absence of leaks: the code keeps some references for good, and these are counted in `leaked`; parents are decremented but not destroyed by the last release of a sub-buffer, as in the code.
- Deferral.DeferredIsEager: one queue carries the commands, and unmap is excluded, because it acts at once without draining the queue (lib/CL/clEnqueueUnmapMemObject.c:81-101); unmap is part of all lifetime and extent results.
- Deferral.DeferredIsEager: a host store or an initial copy is included when it commutes with what is pending; `Limits.CreatedTooEarly` shows that this is needed.
- FlatMemory.CreateCommutesIff: a new buffer whose memory overlaps what a pending transfer reads or writes is excluded, since allocation gives fresh memory.
- Eager.DrainOnceOrAlways: the calls name only objects held at that point of either run; a launch whose buffer is kept alive by a pending command alone is lawful only where that command is still pending.
- Deferral.DeferredIsEager: a deferred write is included when the device's index and dev_id name the same pointer; `Deferral.WriteSimIff` shows that this is needed.
- ProgramSource.CreateSource: what happens after an overrun of the stack copy is not modelled.
- Host.Host.SetKernelArgument: what an access outside the arrays does is not modelled; the state is left as it was.
- Host.Host.SetKernelArgument: the HSA branch at lib/CL/clSetKernelArg.c:80-86, and the null test that looks at four bytes of a pointer, are not modelled; whether a value counts as given is a parameter.
- Outcomes.CopyOutcome: the pointer array of a buffer is as long as the platform has devices, so the queue's device has a place in it (`Outcomes.Reaches`), in this and the other outcomes of commands; the place may hold null.
- Runs.ArgumentStorage: the blocks of a freed kernel's arguments stay in use, as clReleaseKernel does not free them (lib/CL/clReleaseKernel.c:35-58).
- SimCalls.SnapshotCopies: alignment and padding of argument blocks are not modelled.
- ListSort.MergePass: one body stands for the three macro texts, with the ring's stop node and the prev links as parameters.
- ExtentRuns.OperationsStayInBuffers: what a kernel itself reads and writes is up to the kernel, and is not bounded; rectangles are at the tested addresses, which the basic device does not always use (`Rect.DriverAddressIff`).
- ExtentRuns.OperationsStayInBuffers: mappings are unmapped after their map command has run, as in all lifetime results; `Limits.UnmapIff` shows that this is needed.
- FlatMemory.BasicDeviceReachesEager: rectangle operations of the basic device are not spelled out; they are never pending, so no store meets them.
- Literals.StripKeepsLiteralsIff: a literal runs to its closing quote or the end of the text; that a newline may not occur in one, trigraphs and line splicing are not modelled.
- NDRange.Prepare: the compilation steps of a CPU launch (lib/CL/clEnqueueNDRangeKernel.c:165-250) and the failures they can return are not modelled.
- clEnqueueWriteBufferRect aborts where the other two rectangle calls return an error, and both count as refused.
- Runs.EventStatus: when the variable passed to a rectangle write names a freed event, the model writes the status at that event's place; what such a write does to reused memory is not modelled.
- ExtentRuns.MapStaysInsideIff: on a queue whose device is outside its context the transfers stop at an assertion that the index search succeeded; the model lets them go on with the null pointers found there, as a build without assertions does.
- Brig.FindSymbolOffset: a section that is not tiled, on which the loop would run on, is excluded.
- Runs.EventStatus: events of unmaps and of failed maps are outside the prefix of enqueue order, since both complete at once.
- Counter.DestroyedOnce: the lock is an atomic step; memory ordering is not modelled.
