# braids: a verified model

A Dafny model of `braids`, a planner and executor for procedural generation, and of its FastNoise planner.
It covers five connected parts.

- **The FastNoise compiler and its pipeline** (`SlotTable`, `GraphState`, `TopoSort`, `Semantics`, `Compile`,
  `Codec`, `Ssa`, `Grid`, `Runtime`, `Kernels`, `Carry`, `Operators`, `InitGrid`, `Correctness`,
  `Backend`, `Inline`, `Compiler`, `Planner`, `Results`, `PacketCheck`, `StackCore`). A named node graph is
  sorted, given slots and emitted as encoded kernels; batches are packed, the kernels run over flat buffers, and
  the result is cut back into queries. `Semantics.Eval` says what a graph means by recursion over it, `Operators`
  what each operator computes, and `Results.StateCorrect` that the compiled and prepared program computes exactly
  that.
- **The packet** (`Packet`, `Recycling`): an indexed buffer store that is a map from slot to data, also when
  it is recycled.
- **The lane scheduler** (`LaneQueue`, `Lanes`, `LaneGrants`): `LaneQueue` has the locked sections of one
  backend, as a class; `Lanes` interleaves them over any number of threads, each a stack of calls, with the
  shutdown flag and the condition variable; `LaneGrants` says what the registered lane counts mean.
- **Jobs and versions** (`StackProtocol`, `JobSafety`, `VersionSafety`, `Collection`, `Reachability`,
  `JobExecution`): dispatch, the encode, stage and decode tasks, cancellation, collection, updates that swap
  versions, and reuse of prepared objects, as a transition system with one step per locked section, flag access,
  or planner or backend call. `Collection` follows handles from dispatch to collect, and `Reachability` builds
  runs that complete.
- **Limits** (`Limits`): concrete inputs and runs at and outside the conditions of the main results.

Two and three dimensions are one model with an arity. Floats are 32-bit patterns; arithmetic and noise are the
functions of the record `Semantics.Ops`, so every statement holds for any arithmetic. A panic is the error
`Panicked`, standing for the unwinding that callers catch or pass on. Integers are unbounded except where the
source casts or wraps: 32-bit metadata and offsets, the 16-bit slot counter, 32-bit generations.

Exact conditions that the source leaves implicit:

- A compiled graph runs a batch with samples, fewer than 2^32 of them, if and only if every node that is not on
  or behind a cycle has enough inputs and parameters, distinct operands when binary, legal clamp bounds, and no
  more dimensions than the graph (`Semantics.Runnable`). Compilation itself does not ask for this.
- A batch without samples runs if and only if every such node has enough inputs and parameters and distinct
  operands, and 3D readers of the base coordinates of a 2D graph find a float buffer at slot 12 of the packet
  (`Semantics.Runs`). This is the one case in which a recycled packet changes an outcome
  (`Results.SameAnswers`, `Limits.MisdimensionedTwoPackets`).
- Offsets are prefix sums, and a successful result is the graph's evaluation, if and only if the batch has fewer
  than 2^32 samples.
- A compiled plan validates if and only if it needs at most 65504 dynamic slots, the slots from 32 to 65535.
- A leftover slot of a recycled packet reads as empty where a fresh packet reports it missing.
- A terminal record is written twice if and only if the hand-off of one of its job's stages was refused and the
  refusing call is done; its kind does not change (`JobSafety.RecordWrites`, `Limits.RefusalFailsTwice`).
- An accepted state still fails to compile when the executor was shut down before the prepare permit was asked
  for; that outcome is the parameter `permitted`.

`docs/architecture.md` describes jobs as running compiled stages one by one; that is proved here, per job. It
makes no promise about the order of different jobs, and none is claimed.

## Model

| member | source | states |
|---|---|---|
| Results.StateCorrect | fastnoise/src/runtime.rs:782-981 | Compiler correctness, for an accepted planner state, any listing of its nodes and any packet: a batch with a query of the other dimension fails; below 2^32 samples the prepared stages run if and only if every compiled node runs on the occasion (with or without samples, with or without a third coordinate buffer in the packet); and what a successful run returns is the recursive evaluation of the final field at every sample if and only if the batch has fewer than 2^32 samples |
| Results.OutcomeExact | fastnoise/src/runtime.rs:782-981 | For batches of any size and any packet a compiled state succeeds if and only if the reference outcome exists, and returns it; listing, order and slots do not enter that outcome, and the packet only by having a third coordinate buffer or not |
| Compiler.OversizeUnanswered | fastnoise/src/runtime.rs:324-339 | From 2^32 samples on, no plan, no stages and no packet yield an answer to the batch: the pieces are together only as long as the last 32-bit offset says |
| Results.AcceptedExact | fastnoise/src/runtime.rs:782-981 | Compile and validate succeed if and only if the id-to-node map is closed, its final field is an acyclic scalar, every acyclic node has inputs of the right kind, and at most 65504 dynamic slots are needed |
| Results.SameAcceptance | fastnoise/src/runtime.rs:129-153 | History independence: two compiles of equal states succeed together and validate together, whatever node listings and orders their histories produced |
| Results.SameAnswers | fastnoise/src/runtime.rs:360-402 | History independence, on every batch and any two packets: two compiles of equal states return equal values whenever both succeed; one succeeds and the other fails if and only if the third buffer decides (no points, and some node runs on no points only beside a third coordinate buffer) and only one of the packets has it |
| Results.BatchIsMap | fastnoise/src/runtime.rs:163-357 | Batch homomorphism: the k-th result of a batch is what the one-query path returns for the k-th query alone, on any other packet |
| Results.WrongShapeFails | fastnoise/src/runtime.rs:235-236 | A batch with a query of the other dimension fails |
| JobSafety.StackSafe | src/stack.rs:889-1039 | In every reachable state of jobs, collectors and updates, all job and version invariants hold: one working call per job, calls in script order on the captured version, records and deliveries consistent |
| JobSafety.AsyncIsInline | src/stack.rs:720-749 | Async refines inline: a completed job, and whatever was collected from it, holds exactly the inline result for its queries, the version captured at dispatch and the packet it checked out, after encode, all stages in order, and decode |
| JobSafety.AsyncAnswers | src/stack.rs:224-260 | Values a job completed with, stored or delivered, are correct for the graph its captured version was compiled from: its recursive evaluation at every sample if and only if the batch has fewer than 2^32 samples |
| JobSafety.AsyncMatchesInline | src/stack.rs:720-749 | For values stored or delivered, inline execution of the captured version on the same queries and any packet returns those values, and fails if and only if the third buffer decides and only the job's packet had it |
| JobSafety.UndisturbedEnds | src/stack.rs:889-992 | A listed job that met no fault, refusal or cancellation, once no call works for it, is completed if inline execution on its packet succeeds, with that value while uncollected, and failed with the inline error otherwise |
| Reachability.InlineReached | src/stack.rs:889-992 | For every version, valid batch and packet there is a run from creation whose job ends as inline execution would: completed with its values or failed with its error |
| Reachability.AnswerReached | src/stack.rs:224-260 | Below 2^32 samples, wherever all nodes of the source graph run, there is a run from creation that completes the job and delivers the graph's evaluation to a collector |
| JobSafety.RecordWrites | src/stack.rs:920-942 | In every reachable state a job's terminal record has been written at most twice, and twice if and only if the hand-off of one of its stages was refused and no call works for it any more |
| JobSafety.CancelledNeverCompletes | src/stack.rs:581-591 | A job cancelled before its decode task passes the cancel check is not completed at the end of any run |
| JobSafety.RunEvolves | src/stack.rs:838-881 | Over any run a terminal record keeps its kind, version and queries never change, history, deliveries and the count of record writes only grow |
| JobSafety.DeliveredOnce | src/stack.rs:467-507 | Decoded values reach at most one collector over any run |
| Collection.CollectsOwn | src/stack.rs:467-507 | Over every run, the c-th collect call receives the outcome of the job it named, the one the dispatch of that number started: for exactly one call the values of inline execution on that dispatch's batch, an empty vector for later ones, the job's own or a bare error, or Cancelled |
| Collection.RunHandles | src/stack.rs:225-260 | Handles are the order of dispatch and collectors the order of collect calls, with the batch and handle each was given |
| Collection.CapturedVersion | src/stack.rs:226-234 | A job stays on the version that was current at its dispatch, whatever is swapped in later |
| Collection.OthersUntouched | src/stack.rs:838-992 | Every step leaves all jobs but the one it speaks about exactly as they are: its call's, the one to cancel, or the one its collector named |
| Collection.CancelSets | src/stack.rs:581-591 | cancel sets the flag of the job it names |
| Collection.UnlistRemoves | src/stack.rs:503-506 | collect ends by taking the job it named out of the table |
| Reachability.EachItsOwn | src/stack.rs:467-507 | Two jobs dispatched in turn and collected in the opposite order: each call receives the values of the job it asked for |
| VersionSafety.VersionsSafe | src/stack.rs:795-836 | In every reachable state prepared objects have one owner, ids follow swap order, referenced versions keep their objects, and unfinished updates have changed nothing |
| VersionSafety.SafeReuse | src/version.rs:18-34 | The prepared object of the current version, or of one an inline execution or live call refers to, is neither in the pool nor with an update nor shared with another version |
| VersionSafety.ReaderKeepsVersion | src/stack.rs:281-294 | An inline execution holds the version current when it began, prepared object included, while versions are swapped and dropped, until an execution ends |
| VersionSafety.PreparedObject | src/stack.rs:809-818 | prepare keeps the reused object when it says so and otherwise makes one no version and no pool has |
| VersionSafety.AppliedOnly | src/stack.rs:176-193 | apply and replace change the planner state and nothing else |
| VersionSafety.FailedUpdate | src/stack.rs:209-219 | A failed update leaves planner state, current version and published id as its start found them, and every version that existed then unchanged, but for objects of unreferenced versions dropped meanwhile |
| VersionSafety.CommittedUpdate | src/stack.rs:209-219 | A committed update installs its own state and a recompile leaves the planner state alone; either way the current version, whose id is published, is then the compile of the planner state |
| VersionSafety.IdsIncrease | src/stack.rs:820-835 | Over any step existing versions never change, only a swap moves the current version, to a strictly larger id, and only a publication moves the published id, upwards |
| VersionSafety.StepVersioned | src/stack.rs:795-836 | Every step of jobs, collectors, inline readers, drops and updates keeps the version invariants |
| Lanes.Safety | src/executor.rs:287-437 | Over every run, for any lane counts and number of threads: lanes_in_use is the tasks handed off, queued or running plus live permits, prepares_in_use is the live permits, both within bounds; waiting work implies all lanes taken; every task is in exactly one place; grants follow schedule order; no wakeup is lost |
| Lanes.OnceOnly | src/executor.rs:125-139 | A task is run or rejected at most once in all, and exactly once if and only if it is in no other place |
| Lanes.QuietIsDone | src/executor.rs:345-390 | When every thread is idle or asleep and the executor queue is empty, all lanes are free, nothing waits, every task was run or rejected exactly once, and nobody is in fact asleep on prepare_wake |
| Lanes.NotStuck | src/executor.rs:313-437 | While some call is under way and not asleep, some such call has an enabled step |
| Lanes.NeverSaturates | src/executor.rs:353-376 | Whoever is about to finish a lane or a permit holds one, so no saturating subtraction saturates |
| LaneGrants.CountsKept | src/executor.rs:186-205 | In every reachable state the lane counts are the registered ones: at least one lane, and prepare lanes clamped between one and that |
| LaneGrants.ScheduleGranted | src/executor.rs:288-311 | Over every run a scheduled task gets a lane at once if and only if fewer lanes are live than registered, and else queues |
| LaneGrants.PermitGranted | src/executor.rs:313-343 | Over every run an acquire that read the flag clear is granted if and only if nothing waits and fewer lanes and permits are live than registered; else it sleeps |
| LaneGrants.RunInOrder | src/executor.rs:462-494 | Workers take tasks in the order they were pushed |
| LaneGrants.LateNeverRuns | src/executor.rs:392-421 | Once the flag is set, a task that has not passed its flag test is never run, whatever happens |
| LaneGrants.LatePermits | src/executor.rs:313-343 | Once the flag is set and no acquire stands between flag and decision, permits are only given back |
| Lanes.StepSound | src/executor.rs:288-437 | Every step keeps accounting, work conservation, task places and grant order |
| Lanes.StepAwake | src/executor.rs:313-343 | Every step keeps the wakeup invariant: a sleeper has nothing to wake for, or someone owes notify_all; a flag set while acquire_prepare holds the lock leaves a drain still to come |
| TopoSort.Sort | fastnoise/src/runtime.rs:787-815 | The emitted order has no repeats, puts dependencies first, holds exactly the handles that neither lie on nor depend on a cycle, and is breadth first: by when the last dependency was emitted, then by handle; repeated inputs included; the asserted positive indegree means the saturating subtraction never saturates |
| TopoSort.OneOrder | fastnoise/src/runtime.rs:787-815 | The dependencies alone determine that order |
| TopoSort.ReverseEdges | fastnoise/src/runtime.rs:787-796 | adjacency holds every dependency occurrence reversed, indegree its count |
| TopoSort.Exact | fastnoise/src/runtime.rs:804-815 | When the queue is empty the emitted handles are exactly those that reach no cycle |
| TopoSort.Release | fastnoise/src/runtime.rs:807-814 | Releasing a child keeps indegree equal to pending dependencies, never enqueues a handle twice and never meets a zero indegree |
| Compile.CompileGraph | fastnoise/src/runtime.rs:782-981 | Succeeds if and only if every name, kind and order reference resolves, and then returns the plan of the topological order it emitted |
| Compile.PlanBuffersListed | fastnoise/src/runtime.rs:817-880 | The declared buffers in order: query buffers 0 to 2, base coordinates from 10 on, dynamic slots from 32 on |
| Compile.PlanStagesListed | fastnoise/src/runtime.rs:881-978 | The first stage is grid initialisation bound to the query buffers, stage j + 1 the one kernel of node j under its registered kind; no statics; the graph's dimension and final slot |
| Compile.AllocateAll | fastnoise/src/runtime.rs:817-880 | The slot tables record for every emitted handle the consecutive slots of its own run of the counter, and the declared buffers are the base buffers followed by those runs |
| Compile.AllocateSlots | fastnoise/src/runtime.rs:1030-1054 | Slots are consecutive values of a 16-bit counter that wraps |
| Compile.EmitStages | fastnoise/src/runtime.rs:882-971 | One init stage and then one encoded kernel per emitted node; fails if and only if some kernel reference is missing |
| Compile.ResolveKernel | fastnoise/src/runtime.rs:906-966 | Each node becomes the kernel with its own output slots and the slots of its named sources |
| Compile.CollectDependencies | fastnoise/src/runtime.rs:983-1003 | Dependencies are resolved in order, repeats kept; fails if and only if a name is missing |
| Compile.IndexNodes | fastnoise/src/runtime.rs:742-759 | The handle index maps each id to its position in the listing |
| Planner.CompilesExact | fastnoise/src/runtime.rs:782-981 | Success of compile_graph on any listing and order is equivalent to a property of the id-to-node map alone |
| Planner.CyclesAgree | fastnoise/src/runtime.rs:787-815 | A handle reaches a cycle of handles if and only if its id reaches a cycle of names |
| Planner.KernelExact | fastnoise/src/runtime.rs:906-966 | A node's kernel references exist if and only if its sources are positions of its own dimension, or its inputs scalars |
| Planner.DemandExact | fastnoise/src/runtime.rs:846-880 | The number of dynamic slots is the number of output components of the acyclic nodes |
| Planner.RunsExact | fastnoise/src/runtime.rs:636-724 | On each occasion all emitted nodes run if and only if all acyclic nodes of the map do |
| Ssa.SingleWriter | fastnoise/src/runtime.rs:846-880 | No two node stages write the same dynamic slot, and no node stage writes a reserved slot |
| Ssa.OneWriter | fastnoise/src/runtime.rs:846-880 | Within the bound every dynamic slot the plan declares is written by exactly one stage, a node stage, and every slot a node stage writes is one of them |
| Ssa.ReadsEarlier | fastnoise/src/runtime.rs:1015-1028 | A stage reads only base coordinates or slots written by an earlier stage |
| Ssa.ValidatesIffFits | src/pipeline.rs:257-295 | A compiled plan passes validate if and only if it needs at most 65504 dynamic slots |
| Ssa.SlotsDisjoint | fastnoise/src/runtime.rs:1048-1054 | Slots of different nodes are disjoint |
| Ssa.OwnRun | fastnoise/src/runtime.rs:1030-1054 | Within the bound the counter never wraps: every node owns consecutive slots from 32 on |
| Ssa.WrappedClash | fastnoise/src/runtime.rs:1030-1034 | One slot beyond the bound wraps to the metadata slot and repeats a declared slot |
| Semantics.EvalMonotone | fastnoise/src/runtime.rs:782-981 | Recursive evaluation is well defined: a value found at some depth is the value at every greater depth |
| Correctness.StepRuns | fastnoise/src/runtime.rs:550-724 | The stage of a node that runs on the occasion succeeds, leaves its evaluation at every sample in its slots, and disturbs nothing computed before |
| Correctness.StepFails | fastnoise/src/runtime.rs:636-724 | The stage of a node that does not run on the occasion fails, samples or none |
| Correctness.ThirdAxisMissing | fastnoise/src/runtime.rs:480-485 | A 3D node reading base coordinates in a 2D graph fails if there is a sample or the packet has no third coordinate buffer: that buffer is never filled |
| Correctness.CombineNode | fastnoise/src/runtime.rs:636-724 | A combine reads exactly its operands' evaluations, from slots distinct from each other and from its output |
| Correctness.PositionNode | fastnoise/src/runtime.rs:550-634 | A warp or sample reads exactly its source position, base or computed |
| Compiler.PrepareRecovers | src/cpu.rs:74-94 | Preparing a compiled plan recovers from the payload bytes exactly the kernels compile_graph encoded, stage by stage |
| Compiler.OrderCorrect | fastnoise/src/runtime.rs:782-981 | Compiler correctness for one emitted order, batches of any size and any packet: the run succeeds if and only if the batch lays out, every node runs on the occasion and the offsets cut; it then returns the evaluations, cut at the offsets |
| Compiler.StagesRun | src/cpu.rs:96-116 | After the init stage and n node stages: success if and only if the points lay out and the first n nodes run on the occasion, and then those nodes carry their evaluations |
| Compiler.AnswersUnique | fastnoise/src/runtime.rs:324-339 | A batch has at most one answer |
| Carry.KernelRuns | fastnoise/src/runtime.rs:550-724 | A kernel whose inputs carry rows of arguments runs, its outputs carry the pointwise results, and nothing else changes |
| Operators.BinaryCell | fastnoise/src/runtime.rs:706-723 | Every output cell of an add, sub, mul, min or max kernel is that operation on the cells of its first and second input at the same sample, in that order |
| Operators.ClampCell | fastnoise/src/runtime.rs:647-660 | A clamp cell is its input clamped between its first and second parameter |
| Operators.RemapCell | fastnoise/src/runtime.rs:661-680 | A remap cell lies on the linear ramp from source range (first two parameters) to target range (last two), clamped, and at the first target on a negligible range |
| Operators.GradientCell | fastnoise/src/runtime.rs:681-702 | A gradient cell adds to its input such a ramp over the y coordinate in buffer 11 |
| Operators.SampleCell | fastnoise/src/runtime.rs:600-634 | A sample cell is the noise at the source position, axis by axis in order |
| Operators.WarpCell | fastnoise/src/runtime.rs:550-598 | Output c of a warp holds warped coordinate c of the source position |
| Operators.OperatorRuns | fastnoise/src/runtime.rs:636-724 | The inputs and parameters each operator needs: two distinct inputs, or one input with two (clamp) or four (remap, gradient) parameters |
| Operators.BinaryNode | fastnoise/src/runtime.rs:636-724 | A binary node evaluates to its operation on the values of its first and second input |
| Operators.UnaryNode | fastnoise/src/runtime.rs:647-702 | Clamp, remap and gradient nodes evaluate as their cells do, the gradient over the point's y coordinate |
| Operators.PositionFound | fastnoise/src/runtime.rs:550-634 | Samples and warps evaluate at the base coordinates in order, or at the coordinates of their source node |
| Operators.AddUndoesSub | fastnoise/src/runtime.rs:641-642 | Where addition undoes subtraction, Add(Sub(a, b), b) evaluates to a |
| Operators.RemapEnds | fastnoise/src/runtime.rs:661-680 | Where arithmetic is exact, a remap sends the low end to the first target, the high end to the second, and a negligible range to the first |
| Operators.GradientEnds | fastnoise/src/runtime.rs:681-702 | Where arithmetic is exact, a gradient adds the first target at its low y, the second at its high y, and the first on a negligible range |
| Operators.ClampBounds | fastnoise/src/runtime.rs:647-660 | Where clamp is min of max, a clamp node is its input raised to the first and cut at the second parameter |
| Grid.GridIndexBijective | fastnoise/src/runtime.rs:511-516 | Cell (x, y, z) has an index below w*h*d that determines it |
| Grid.GridIndexOnto | fastnoise/src/runtime.rs:511-516 | Every index below w*h*d is the index of its cell |
| Grid.CellPoint | fastnoise/src/runtime.rs:511-537 | Cell (x, y, z) of a query is sample (z*h + y)*w + x, and its coordinates are origin + index * step axis by axis: x on axis 0, y on axis 1, z on axis 2 |
| Grid.OneAxisMoves | fastnoise/src/runtime.rs:511-537 | Moving one cell along one axis changes no other coordinate |
| Grid.EncodedLayout | fastnoise/src/runtime.rs:191-239 | What encoding stores of each query: sides in buffer 0, origin and step padded with 0 and 1 in buffer 1, begin and end of its samples in buffer 2, all modulo 2^32 |
| Grid.OffsetsExact | fastnoise/src/runtime.rs:238-238 | The stored offsets are the prefix sums of sample counts if and only if the batch has fewer than 2^32 samples |
| Grid.CutBatch | fastnoise/src/runtime.rs:324-339 | Cutting a result column at the stored offsets gives every query its own run of samples |
| Grid.BatchPointsSplit | fastnoise/src/runtime.rs:163-242 | The points of a batch are those of its queries, query after query |
| InitGrid.InitCarriesPoints | fastnoise/src/runtime.rs:464-548 | Below 2^32 samples, after encoding and grid initialisation the base buffers hold the point of every sample, sized to the total, and a 2D graph has no third coordinate |
| InitGrid.BaseCells | fastnoise/src/runtime.rs:503-537 | After grid initialisation buffer 10 holds the x, buffer 11 the y and buffer 12 the z coordinate of every cell of every query, behind the samples of the queries before it |
| InitGrid.InitLays | fastnoise/src/runtime.rs:464-548 | Grid initialisation of an encoded batch of any size, on any cleared packet, succeeds if and only if the stored grids fit the buffers sized by the last offset, and then the base buffers hold the laid points, whatever the packet |
| InitGrid.LaidBatch | fastnoise/src/runtime.rs:494-520 | Below 2^32 samples the laid points are exactly the points of the batch |
| InitGrid.BatchLaid | fastnoise/src/runtime.rs:494-520 | The init loops never go out of bounds and lay out every sample's point at its own index |
| InitGrid.StoredGrid | fastnoise/src/runtime.rs:196-233 | Below 2^32 samples the grid stored for a query has the query's own samples, despite the 32-bit casts of its sides |
| Kernels.Run | src/cpu.rs:16-19 | Running a kernel in place on a packet gives the packet the kernel specification prescribes, or its error, or a cancellation some poll observed; float kernels keep the kinds of a packet's buffers even when they fail |
| Kernels.RunPointwise | fastnoise/src/runtime.rs:550-724 | Warp, sample and combine loops compute every output cell from the input cells of the same sample |
| Kernels.FillSamples | fastnoise/src/runtime.rs:711-723 | The sample loop writes exactly the specified columns, and fails exactly on an index out of bounds or an illegal clamp; a run that succeeds polled once per poll interval, and every poll saw the flag clear |
| Kernels.PollIntervals | fastnoise/src/runtime.rs:18-22 | Poll intervals: 4096 samples, or 2048 for 3D warps and samples and for gradients |
| Kernels.RunGridInit | fastnoise/src/runtime.rs:464-548 | The nested grid loops write what grid initialisation specifies |
| Kernels.FillGrid | fastnoise/src/runtime.rs:509-522 | The x, y, z loops of one query write the query's samples in index order, each coordinate from its own axis and index, polling every 32 (2D) or 16 (3D) rows |
| Backend.Prepare | src/cpu.rs:74-94 | Kernels are prepared in order; the first unregistered kind or malformed payload is the error |
| Backend.PrepareOne | fastnoise/src/runtime.rs:405-461 | A kernel spec is rejected if its kind is unknown, else decoded by its kind |
| Backend.RunStageOn | src/cpu.rs:96-116 | A stage runs its kernels in order, polling the cancel flag before each; a missing stage is an error |
| Backend.ValidatePacket | src/pipeline.rs:298-319 | The debug check accepts a packet if and only if undeclared buffers are empty and declared ones have their kind and length |
| Backend.EncodeBatch | fastnoise/src/runtime.rs:163-242 | Whatever the packet held, encoding leaves exactly metadata, padded floats and prefix-sum offsets of the batch, or fails if and only if a query has the wrong dimension |
| Backend.WriteQueries | fastnoise/src/runtime.rs:191-239 | The encode loop fills the three buffers with exactly the batch's contents |
| Pipeline.Validate | src/pipeline.rs:257-295 | A plan is accepted if and only if slots are distinct, statics are declared once with their kind, and every binding is declared |
| Pipeline.ValidBinding | src/pipeline.rs:276-292 | In a valid plan every kernel binding names a declared buffer |
| Pipeline.ValidStatic | src/pipeline.rs:259-275 | In a valid plan every static buffer is declared exactly once, with its kind, and is the only static of its slot |
| Pipeline.SpecsBySlot | src/pipeline.rs:321-332 | Indexing succeeds if and only if declared slots are distinct, and then maps each slot to its declaration |
| Pipeline.LengthsDeclared | src/pipeline.rs:123-145 | A scalar buffer has one item per query, a vector its width per query, a dynamic one any length |
| PacketCheck.NeverRefused | src/stack.rs:1041-1054 | No packet of a compiled run, from encoding to the last stage, is refused by the debug check when leftovers have the right kinds, which every run re-establishes (CompiledKinded): debug and release builds agree |
| PacketCheck.CompiledKinded | src/stack.rs:1041-1054 | A compiled plan loads and writes only buffers of the kinds their slots have, the condition under which inline runs and jobs give a packet's kinds back on every exit |
| Model.TagOf | fastnoise/src/model.rs:33-44 | Exactly the seven registered kinds resolve, each to the kernel it came from |
| Model.RegisteredKinds | fastnoise/src/model.rs:18-44 | The seven registered kinds by number |
| Inline.ExecuteInline | src/stack.rs:720-749 | The result is the function of version, queries and cleared packet that Executed names, unless a poll observed a cancellation or the debug check refused a packet; buffer kinds survive every exit |
| Inline.ExecuteOneInline | src/stack.rs:751-779 | The same for one query |
| Inline.RunAllStages | src/stack.rs:666-679 | Stages run in order, each once, with at least one poll per stage; the first error stops the run, and success means every poll saw the flag clear |
| Inline.OneIsBatchOfOne | fastnoise/src/runtime.rs:244-357 | encode_one, the stages and decode_one succeed exactly when the batch path on a batch of one does, with the same value, for every plan and packet |
| Inline.EncodeOne | fastnoise/src/runtime.rs:244-322 | Writes the metadata, floats and two offsets of one query |
| Inline.DecodeBatch | fastnoise/src/runtime.rs:324-339 | Cuts the final buffer at the offsets, or fails as slicing would |
| Inline.DecodeOne | fastnoise/src/runtime.rs:341-357 | Cuts the single run, with an error instead of a panic on an unusable range |
| Inline.Checkout | src/stack.rs:599-606 | The packet is cleared and the statics loaded, whatever it held |
| Inline.StaticLoaded | src/stack.rs:599-606 | After checkout a static's slot holds its data, unless a later static of that slot replaced it |
| Packet.CancelFlag.IsCancelled | src/job.rs:64-66 | Every poll is a fresh read of the flag: polls are counted over all levels of a run, and a result Cancelled names a poll that read it set |
| Inline.RunFloatWrites | fastnoise/src/runtime.rs:464-724 | Stages replace float buffers only: every other buffer present afterwards was there unchanged |
| StackCore.Stack.Update | src/stack.rs:209-219 | Succeeds if and only if the prepare permit is granted and the changed state is accepted; then state, source and version are the new ones with a larger id, every id decided by the last change naming it; otherwise, ExecutorShutdown included, state, version and ids are exactly as before |
| StackCore.Stack.Recompile | src/stack.rs:196-203 | Swaps in a version of the live state with a larger id if and only if permitted and accepted, or changes nothing |
| StackCore.Stack.CompileFrom | src/stack.rs:795-836 | All or nothing: version, ids and next id change if and only if compile and validation succeed and the prepare permit is granted; a refused permit on an accepted state is the error ExecutorShutdown |
| StackCore.Stack.Apply | src/stack.rs:176-183 | Changes the live state only |
| StackCore.Stack.Replace | src/stack.rs:186-193 | Resets the live state only |
| StackCore.Stack.Resolve | src/stack.rs:281-357 | An inline result is correct for the graph the current version was compiled from, and so is failing; else the error is an observed cancellation, or in debug builds the packet came with leftovers of other kinds; a packet of the right kinds is given back so |
| StackCore.Create | src/stack.rs:133-173 | A stack is created if and only if the prepare permit is granted and the initial state is accepted, with version id 1 |
| StackCore.CompileState | src/stack.rs:795-815 | compile, validate and prepare together succeed if and only if the state is accepted and the prepare permit is granted; ExecutorShutdown if only the permit is missing |
| JobExecution.Execution.EncodeStep | src/stack.rs:944-957 | Marks the record running, encodes the checked-out packet, stores it and names the next task; a cancelled job changes nothing |
| JobExecution.Execution.StageStep | src/stack.rs:959-983 | Runs one stage on the stored packet and names the next task |
| JobExecution.Execution.DecodeStep | src/stack.rs:984-992 | Decodes, gives the packet back cleared and completes the record with the values |
| JobExecution.Execution.Finish | src/stack.rs:920-942 | An error cleans up the packet and makes the record cancelled or failed by its kind |
| JobExecution.Execution.RunAll | src/stack.rs:889-992 | The tasks run one after another end as inline execution of the same packet would, completed with its values or failed with its error, unless a poll saw the cancel flag (cancelled) or, in debug builds only, a packet was refused (failed); buffer kinds are kept |
| JobSafety.StepLawful | src/stack.rs:889-1039 | Every step of every call, collector and update keeps the job invariants |
| JobSafety.MovedLawful | src/stack.rs:920-942 | A step of the one working call of a job disturbs no other call or job |
| JobSafety.HandLawful | src/stack.rs:944-983 | Scheduling the next task leaves one working call, whether it is accepted or refused |
| JobSafety.RejectLawful | src/stack.rs:1034-1037 | Rejecting a stage task, first section: its packet is dropped, and all job invariants are kept |
| JobSafety.RejectedLawful | src/stack.rs:1034-1037 | Rejecting a stage task, second section: the failed record is written, and all job invariants are kept |
| JobSafety.TakeLawful | src/stack.rs:482-499 | Taking the outcome keeps the record terminal and the values single |
| JobSafety.StageStands | src/stack.rs:959-983 | After stage k the packet is what k+1 stages of the captured version make of the encoded packet |
| VersionSafety.DropVersioned | src/version.rs:23-33 | Dropping an unreferenced version moves its prepared object to the pool, and keeps one owner per object |
| VersionSafety.ReuseVersioned | src/stack.rs:809-815 | The object prepared last to the pool is popped for reuse, none if the pool is empty, and keeps one owner |
| LaneQueue.BackendRuntime.FinishLane | src/executor.rs:345-366 | The oldest waiter inherits the lane; after shutdown the recursion terminates with all waiters rejected in order, the lane freed and a notification made |
| LaneQueue.BackendRuntime.SubmitReady | src/executor.rs:392-421 | Hands the task to the executor, or rejects it and everything behind it and frees the lane |
| LaneQueue.BackendRuntime.Reject | src/executor.rs:133-138 | A rejected task finishes its lane like any other |
| LaneQueue.BackendRuntime.Schedule | src/executor.rs:288-311 | Takes a free lane or waits; an error is returned if and only if a granted task could not be submitted |
| LaneQueue.BackendRuntime.TryAcquirePrepare | src/executor.rs:313-343 | Shut down, granted or blocked, exactly by flag and condition |
| LaneQueue.BackendRuntime.FinishPrepare | src/executor.rs:368-390 | Frees permit and lane, hands the lane on if work waits, and always notifies |
| LaneQueue.BackendRuntime.Shutdown | src/executor.rs:423-436 | The first call drains and rejects the waiters in order without touching lanes; later calls do nothing |
| LaneQueue.NewQueue | src/executor.rs:186-205 | The registered counts, with at least one lane and prepare lanes clamped between one and that; nothing in use, nothing waiting |
| LaneQueue.BackendRuntime.constructor | src/executor.rs:195-204 | A new backend has the registered counts, clamped the same way, and nothing in use |
| Packet.JobPacket.constructor | src/job.rs:93-100 | A new packet is the empty map |
| Packet.JobPacket.ClearForReuse | src/job.rs:104-113 | Every buffer becomes empty and keeps its kind; the early return on a clean flag is exact |
| Packet.JobPacket.EnsureSlot | src/job.rs:127-143 | The slot's buffer of the wanted kind, emptied when it had another kind, appended when it was new |
| Packet.JobPacket.EnsureBuffer | src/job.rs:146-152 | The slot has the kind and length asked for; items it held in that kind stay, all others are zero; no other slot changes |
| Packet.JobPacket.LoadStaticBuffer | src/job.rs:154-170 | The slot holds exactly the static data |
| Packet.JobPacket.Slice | src/job.rs:181-190 | The slot's data, or the error for a missing slot or wrong kind |
| Packet.JobPacket.SliceMut | src/job.rs:193-204 | The same, marking the packet dirty only on success |
| Packet.JobPacket.WriteFloat | src/job.rs:193-204 | One cell of one slot changes, or nothing does |
| Packet.JobPacket.WithSlices | src/job.rs:256-293 | Granted requests name pairwise distinct buffers of the requested slots; otherwise the first error in slot order |
| Packet.AppendBuffer | src/job.rs:119-142 | Appending a buffer keeps index table and buffer list mutually inverse and adds one map entry |
| Packet.SliceError | src/job.rs:256-280 | No error if and only if all slots are present, of the kind and pairwise different |
| Packet.FirstRefusal | src/job.rs:256-280 | The reported error is that of the first slot that is missing, repeated or of another kind |
| Recycling.RecycledPlaysFresh | src/job.rs:102-152 | Any sequence of ensures, loads and writes succeeds alike and leaves equal contents on a cleared packet and a fresh one |
| Recycling.PlayOn | src/job.rs:102-205 | The same sequence on a packet's methods |
| Recycling.ReadsAlike | src/job.rs:181-190 | Reads agree if and only if the slot was ensured or is no leftover: a leftover reads as empty where a fresh packet reports it missing |
| SlotTable.SlotTable.Insert | src/slot_table.rs:40-61 | The new key is unused, the map gains exactly that entry, and the slot vacated last is reused before the table grows |
| SlotTable.SlotTable.Remove | src/slot_table.rs:64-74 | The entry is removed and returned, its slot vacated with the next generation and free for reuse; stale keys change nothing |
| SlotTable.SlotTable.Get | src/slot_table.rs:77-83 | Lookup in the map from key to value |
| SlotTable.SlotTable.Set | src/slot_table.rs:86-92 | Replaces exactly one live entry |
| SlotTable.SlotTable.ClearReuse | src/slot_table.rs:110-119 | Every entry goes, every index becomes free, live generations move on |
| SlotTable.SlotTable.Iterate | src/slot_table.rs:122-135 | The live values in slot order |
| SlotTable.InsertEntries | src/slot_table.rs:40-61 | Insertion refines the map from key to value and keeps the free list exact |
| SlotTable.RemoveEntries | src/slot_table.rs:64-74 | Removal refines the map from key to value and keeps the free list exact |
| SlotTable.ClearEntries | src/slot_table.rs:110-119 | Clearing refines the empty map |
| SlotTable.GenerationCounts | src/slot_table.rs:64-119 | A slot's generation is its initial one plus the number of times it was vacated, modulo 2^32, over any run |
| SlotTable.StaleKey | src/slot_table.rs:77-83 | After any run a key resolves if and only if its slot is live and has been vacated a multiple of 2^32 times since; so a removed key stays stale for fewer than 2^32 vacations |
| GraphState.FastNoiseState.Upsert | fastnoise/src/runtime.rs:383-394 | The state's map gains or replaces exactly that node; dimension and final field stay |
| GraphState.FastNoiseState.Remove | fastnoise/src/runtime.rs:396-401 | The state's map loses exactly that id; unknown ids, dimension and final field stay as they are |
| GraphState.FastNoiseState.Apply | fastnoise/src/runtime.rs:129-138 | An id is present afterwards exactly if the last change naming it is an upsert, then with that node, or none names it and it was there; the final field is the last one set; the dimension stays |
| GraphState.LastChangeWins | fastnoise/src/runtime.rs:129-138 | Applying changes one by one is letting the last change of every id, and of the final field, decide |
| GraphState.FastNoiseState.ResetFromSpec | fastnoise/src/runtime.rs:372-381 | The value is that of the spec: exactly the listed ids, each with the last node listed under it, whatever the state held |
| GraphState.FastNoiseState.FromSpec | fastnoise/src/runtime.rs:361-370 | The value is that of the spec |
| GraphState.FastNoiseState.Collect | fastnoise/src/runtime.rs:742-759 | Compilation sees every live node exactly once |
| GraphState.UpdatedState | fastnoise/src/runtime.rs:140-153 | A changed copy; the original is untouched |
| Codec.RoundTrip | fastnoise/src/runtime.rs:1383-1532 | Decoding an encoded payload gives it back |
| Codec.DecodeExact | fastnoise/src/runtime.rs:1383-1532 | Bytes decode to a payload if and only if they begin with its encoding, so re-encoding gives back the bytes consumed |
| Codec.StrictPrefixTruncated | fastnoise/src/runtime.rs:1314-1325 | Every strict prefix of an encoding is rejected as truncated |
| Codec.EncodingInjective | fastnoise/src/runtime.rs:1383-1532 | Payloads of one kind whose bytes are prefixes of each other are equal |
| Codec.WordAt | fastnoise/src/runtime.rs:1190-1208 | Words are stored low byte first |
| Codec.TagNumbers | fastnoise/src/runtime.rs:1231-1302 | The numbers operators and noise settings are stored as |
| Codec.NoiseFields | fastnoise/src/runtime.rs:1210-1229 | The order of a noise generator's fifteen settings |
| Codec.WarpStored | fastnoise/src/runtime.rs:1383-1433 | A warp payload: source slots, output slots, noise |
| Codec.SampleStored | fastnoise/src/runtime.rs:1435-1481 | A sample payload: source slots, output slot, noise |
| Codec.CombineStored | fastnoise/src/runtime.rs:1483-1532 | A combine payload: operator, input count and slots, output slot, parameter count and parameters |
| Codec.PayloadWriter.Encode | fastnoise/src/runtime.rs:93-104 | The writer appends exactly the encoding |
| Codec.PayloadReader.DecodeWarp | fastnoise/src/runtime.rs:1399-1433 | The reader agrees with the parse function for warps |
| Codec.PayloadReader.DecodeSample | fastnoise/src/runtime.rs:1449-1481 | The reader agrees with the parse function for samples |
| Codec.PayloadReader.DecodeCombine | fastnoise/src/runtime.rs:1512-1531 | The reader agrees with the parse function for combines, counts included |
| Codec.PayloadReader.ReadExact | fastnoise/src/runtime.rs:1314-1325 | Reads advance on success and leave the offset alone on failure |
| Limits.DoublingNeverRuns | src/job.rs:266-270 | A graph that adds a node to itself is accepted, but has an unrunnable node |
| Limits.MisdimensionedNeverRuns | fastnoise/src/runtime.rs:480-485 | A 2D graph with a 3D sample is accepted, but its node runs on no batch with samples |
| Limits.MisdimensionedTwoPackets | fastnoise/src/runtime.rs:480-485 | That graph fails the empty batch on a new packet and answers it on a packet with an empty float leftover at slot 12 |
| Limits.ThirdLeftOver | fastnoise/src/runtime.rs:480-485 | A packet on which a 3D grid was initialised still has that buffer after it is cleared for reuse |
| Limits.SmallestStackExists | fastnoise/src/runtime.rs:782-981 | The graph of one base sample is accepted, all its nodes can run, and it has a prepared version: the conditions of the other results can be met |
| Limits.SmallestDelivers | src/stack.rs:467-507 | On the stack of that graph some run from creation completes a batch of one sample and delivers its evaluation: the conditions of the results on completed jobs can be met |
| Limits.OffsetWraps | fastnoise/src/runtime.rs:238-238 | A grid of 2^32 samples is stored with end offset 0 |
| Limits.RefusalFailsTwice | src/stack.rs:920-942 | From any newly created stack with a stage, a concrete run reaches a job whose failed record has been written twice, with the same error |
| StackCore.FrozenNotRefused | src/stack.rs:1041-1054 | No inline run of a frozen version is refused by the debug check on a packet with leftovers of the right kinds |
| StackCore.FrozenKinded | src/stack.rs:1041-1054 | The same for a frozen version: one packet can serve any number of its runs |
| StackCore.FrozenAnswers | src/stack.rs:720-749 | What a frozen version returns for any batch and packet is correct for its source graph, failures included |

## Left out

- Codec: derived internal state of FastNoiseLite; a payload carries the fifteen settings it stores, floats as bit patterns.
- Compile.CompileGraph: asks for fewer than 2^32 inputs and parameters per node, whose counts are stored in 32 bits; longer lists would have to fit in memory first.
- StackCore.Stack.Update: asks the same of the changed state, and so do Recompile and Create. A panic while compiling is one more error; the poisoned locks it leaves behind are not modelled.
- Results.OutcomeExact: from 2^32 samples on, its condition speaks of the wrapped offsets the batch stores (do the grids fit, do the pieces cut), not of the shapes of its grids.
- Backend.EncodeBatch: the sample counter is unbounded; overflow of the machine word in width times height times depth is not modelled.
- Compile.AllocateSlots: wraps as release builds do; a debug build panics on the overflow instead.
- SlotTable.SlotTable.Insert: the key's index is not truncated to 32 bits, which would take 2^32 slots.
- Inline.DecodeBatch: returns each query's samples; the summary (minimum, maximum, mean, checksum, taps) is a function of them and is not modelled.
- PacketCheck.NeverRefused: packets shared with other planners are not covered; the kinds it asks of leftovers hold of a new packet and are kept by every run of a FastNoise plan.
- Lanes.Safety: safety only. That an accepted task eventually runs, or that shutdown returns, is not claimed: the flag is tested before the executor queue is locked, so a task can be queued after the last worker left.
- Lanes.Safety: one backend at a time. Tasks of other backends and plain executor tasks only pass through the executor queue, and their effect on this backend is that of a thread calling in.
- JobSafety.StackSafe: the executor may take or refuse any task at any time, a superset of what the lane scheduler does; the two systems are not composed.
- JobSafety.AsyncIsInline: planner and backend calls may fail for reasons of their own at any step, which covers panics, packet checks and cancellation polled inside a stage; such a job is failed or cancelled, never completed.
- Packet pools and scratch pools: a checked-out packet may hold anything, so which one the pool returns does not matter.
- Job ids beyond their order, poll, the error of collect and the refusal of cancel for a handle that is not in the table, the direct one-query path, one-query hooks with results other than FastNoise's, and dispatch hints.
- slice_many, slice_many_mut, iter_mut and batch scratch: views and storage only.
- Lock poisoning, memory orderings, thread start and join, allocation reuse and capacity; error texts.
- Noise values, float rounding and NaN: `Semantics.Ops` is arbitrary.
