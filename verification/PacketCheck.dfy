/** The debug-build packet check never refuses a run of a compiled plan. */
module PacketCheck {
  import opened Common
  import opened Model
  import opened Semantics
  import opened Pipeline
  import opened Packet
  import opened Grid
  import opened Runtime
  import opened Compile
  import opened Ssa
  import opened InitGrid
  import opened Backend
  import opened Inline
  import opened Compiler

  /** Leftovers of other plans are allowed as long as they are empty. */
  ghost predicate Clean(buffers: seq<BufferSpec>, view: View) {
    Kinded(view) && forall s :: s in view.data && view.data[s].Len() > 0 ==> Declares(buffers, s)
  }

  ghost predicate DynamicPlan(buffers: seq<BufferSpec>) {
    forall i :: 0 <= i < |buffers| ==> buffers[i].kind == KindAt(buffers[i].slot) && buffers[i].layout == Dynamic
  }

  lemma CleanValid(buffers: seq<BufferSpec>, view: View)
    requires DynamicPlan(buffers) && Clean(buffers, view)
    ensures PacketValid(buffers, view)
  {
    hide SpecOf;
    forall s | s in view.data ensures BufferConforms(buffers, view.queryCount, s, view.data[s]) {
      var spec := SpecOf(buffers, s);
      if spec.Some? {
        var i :| 0 <= i < |buffers| && buffers[i] == spec.value;
      }
    }
  }

  lemma WritesClean(buffers: seq<BufferSpec>, view: View, now: View, outs: seq<u16>)
    requires Clean(buffers, view) && Writes(view, now, outs)
    requires forall s :: s in outs ==> Declares(buffers, s) && KindAt(s) == KindF32
    ensures Clean(buffers, now)
  {
    hide Declares;
  }

  lemma EncodedClean(buffers: seq<BufferSpec>, dim: GraphDimension, queries: seq<ChunkQuery>, view: View)
    requires ValidBatch(dim, queries) && Blank(view) && Kinded(view)
    requires forall s: u16 :: s <= 2 ==> Declares(buffers, s)
    ensures Clean(buffers, Encoded(dim, queries, view).value)
  {
    hide Declares;
  }

  lemma BaseSlotsDeclared(dim: GraphDimension, rest: seq<BufferSpec>)
    ensures forall s: u16 :: s <= 2 ==> Declares(BaseBuffers(dim) + rest, s)
    ensures forall s :: s in BaseSlots(dim.Arity()) ==> Declares(BaseBuffers(dim) + rest, s)
  {
    var all := BaseBuffers(dim) + rest;
    assert all[0].slot == 0 && all[1].slot == 1 && all[2].slot == 2;
    assert all[3].slot == SLOT_BASE_X && all[4].slot == SLOT_BASE_Y;
    assert dim.D3? ==> all[5].slot == SLOT_BASE_Z;
  }

  lemma DynamicDeclared(base: seq<BufferSpec>, n: nat, slot: u16)
    requires 32 <= slot < 32 + n
    ensures Declares(base + DynamicBuffers(Consecutive(32, n)), slot)
  {
    var all := base + DynamicBuffers(Consecutive(32, n));
    assert all[|base| + (slot - 32)].slot == slot;
  }

  lemma PlanDynamic(dim: GraphDimension, run: seq<u16>)
    requires forall s :: s in run ==> s >= 32
    ensures DynamicPlan(BaseBuffers(dim) + DynamicBuffers(run))
  {
    var base, all := BaseBuffers(dim), BaseBuffers(dim) + DynamicBuffers(run);
    forall i | 0 <= i < |all| ensures all[i].kind == KindAt(all[i].slot) && all[i].layout == Dynamic {
      if i >= |base| {
        assert run[i - |base|] in run;
      }
    }
  }

  lemma PlanBuffers(dim: GraphDimension, nodes: seq<NodeSpec>, sorted: seq<nat>, finalSlot: u16)
    requires Ordered(nodes, sorted) && Storable(nodes) && AllKernels(nodes, sorted)
    ensures PlanOf(dim, nodes, sorted, finalSlot).buffers
         == BaseBuffers(dim) + DynamicBuffers(Consecutive(32, Demand(nodes, sorted)))
  {}

  lemma OwnDeclared(dim: GraphDimension, nodes: seq<NodeSpec>, sorted: seq<nat>, j: nat, slot: u16)
    requires Ordered(nodes, sorted) && Demand(nodes, sorted) <= DYNAMIC_SLOTS && j < |sorted|
    requires slot in SlotsAt(nodes, sorted, j)
    ensures Declares(BaseBuffers(dim) + DynamicBuffers(Consecutive(32, Demand(nodes, sorted))), slot) && slot >= 32
  {
    hide BaseBuffers, Declares, SlotsAt, SlotStart, Consecutive;
    OwnRun(nodes, sorted, j);
    var c :| 0 <= c < |SlotsAt(nodes, sorted, j)| && SlotsAt(nodes, sorted, j)[c] == slot;
    DynamicDeclared(BaseBuffers(dim), Demand(nodes, sorted), slot);
  }

  lemma NodeTargets(dim: GraphDimension, nodes: seq<NodeSpec>, sorted: seq<nat>, n: nat)
    requires Compiled(nodes, sorted) && n <= |sorted|
    ensures Ordered(nodes, sorted) && AllKernels(nodes, sorted)
    ensures Targets(StageKernels(dim, nodes, sorted)[n][0])
         == if n == 0 then BaseSlots(dim.Arity()) else SlotsAt(nodes, sorted, n - 1)
  {
    hide SlotsAt, Outs, Compiled, KernelAt, AllKernels, Ordered;
    CompiledOrder(nodes, sorted);
    if n > 0 {
      WritesOwn(nodes, sorted, n - 1);
    }
  }

  /** What a compiled stage writes is declared as float. */
  lemma TargetsDeclared(dim: GraphDimension, nodes: seq<NodeSpec>, sorted: seq<nat>, n: nat, finalSlot: u16)
    requires Compiled(nodes, sorted) && Demand(nodes, sorted) <= DYNAMIC_SLOTS && n <= |sorted|
    ensures forall s :: s in Targets(StageKernels(dim, nodes, sorted)[n][0]) ==>
      Declares(PlanOf(dim, nodes, sorted, finalSlot).buffers, s) && KindAt(s) == KindF32
  {
    hide KernelAt, PlanOf, BaseBuffers, DynamicBuffers, Consecutive, Declares, SlotsAt, Demand, Compiled, StageKernels;
    hide Targets;
    CompiledOrder(nodes, sorted);
    PlanBuffers(dim, nodes, sorted, finalSlot);
    NodeTargets(dim, nodes, sorted, n);
    if n == 0 {
      BaseSlotsDeclared(dim, DynamicBuffers(Consecutive(32, Demand(nodes, sorted))));
    } else {
      forall s | s in SlotsAt(nodes, sorted, n - 1)
        ensures Declares(PlanOf(dim, nodes, sorted, finalSlot).buffers, s) && KindAt(s) == KindF32
      {
        OwnDeclared(dim, nodes, sorted, n - 1, s);
      }
    }
  }

  /** Every intermediate packet of a run is clean. */
  lemma {:induction false} StagesClean(
    ops: Ops, dim: GraphDimension, nodes: seq<NodeSpec>, sorted: seq<nat>, finalSlot: u16, view: View, n: nat)
    requires Compiled(nodes, sorted) && Demand(nodes, sorted) <= DYNAMIC_SLOTS && n <= |sorted| + 1
    requires Clean(PlanOf(dim, nodes, sorted, finalSlot).buffers, view)
    requires RunStages(ops, StageKernels(dim, nodes, sorted)[..n], view).Ok?
    ensures Clean(PlanOf(dim, nodes, sorted, finalSlot).buffers,
                  RunStages(ops, StageKernels(dim, nodes, sorted)[..n], view).value)
  {
    hide RunKernel, KernelAt, Compiled, PlanOf, Clean, Targets, Demand, Writes;
    CompiledOrder(nodes, sorted);
    var stages := StageKernels(dim, nodes, sorted);
    if n > 0 {
      NextStage(ops, stages, view, n - 1, stages[n - 1][0]);
      StagesClean(ops, dim, nodes, sorted, finalSlot, view, n - 1);
      TargetsDeclared(dim, nodes, sorted, n - 1, finalSlot);
      var before := RunStages(ops, stages[..n - 1], view).value;
      KernelWrites(ops, stages[n - 1][0], before);
      WritesClean(PlanOf(dim, nodes, sorted, finalSlot).buffers, before, RunKernel(ops, stages[n - 1][0], before).value,
                  Targets(stages[n - 1][0]));
    }
  }

  lemma CompiledOrder(nodes: seq<NodeSpec>, sorted: seq<nat>)
    requires Compiled(nodes, sorted)
    ensures Ordered(nodes, sorted) && AllKernels(nodes, sorted) && Storable(nodes)
  {}

  /**
   * With leftovers of the right kinds, debug and release builds agree: no packet of a run, from
   * encoding to the last stage, is ever refused.
   */
  lemma NeverRefused(
    ops: Ops, dim: GraphDimension, nodes: seq<NodeSpec>, sorted: seq<nat>, finalSlot: u16, queries: seq<ChunkQuery>,
    view: View)
    requires Compiled(nodes, sorted) && Demand(nodes, sorted) <= DYNAMIC_SLOTS
    requires ValidBatch(dim, queries) && Kinded(view)
    ensures Encoded(dim, queries, Cleared(view)).Ok?
    ensures !Refused(ops, PlanOf(dim, nodes, sorted, finalSlot), StageKernels(dim, nodes, sorted),
                     Encoded(dim, queries, Cleared(view)).value)
  {
    hide KernelStages, RunStages, StageKernels, PacketValid, Clean, DynamicPlan, Encoded, BaseBuffers, DynamicBuffers;
    hide Compiled;
    CompiledOrder(nodes, sorted);
    EncodedParts(dim, queries, Cleared(view));
    var plan, stages := PlanOf(dim, nodes, sorted, finalSlot), StageKernels(dim, nodes, sorted);
    var run := Consecutive(32, Demand(nodes, sorted));
    BaseSlotsDeclared(dim, DynamicBuffers(run));
    PlanDynamic(dim, run);
    EncodedClean(plan.buffers, dim, queries, Cleared(view));
    forall n: nat | n <= |stages| && RunStages(ops, stages[..n], Encoded(dim, queries, Cleared(view)).value).Ok?
      ensures PacketValid(plan.buffers, RunStages(ops, stages[..n], Encoded(dim, queries, Cleared(view)).value).value)
    {
      StagesClean(ops, dim, nodes, sorted, finalSlot, Encoded(dim, queries, Cleared(view)).value, n);
      CleanValid(plan.buffers, RunStages(ops, stages[..n], Encoded(dim, queries, Cleared(view)).value).value);
    }
  }

  /** A compiled plan keeps every slot's kind, so one packet can serve any number of runs. */
  lemma CompiledKinded(dim: GraphDimension, nodes: seq<NodeSpec>, sorted: seq<nat>, finalSlot: u16)
    requires Compiled(nodes, sorted) && Demand(nodes, sorted) <= DYNAMIC_SLOTS
    ensures Ordered(nodes, sorted) && AllKernels(nodes, sorted) && Storable(nodes)
    ensures KindedPlan(PlanOf(dim, nodes, sorted, finalSlot), StageKernels(dim, nodes, sorted))
  {
    hide KernelAt, KernelStages, Compiled, Demand, Targets, Declares;
    CompiledOrder(nodes, sorted);
    var stages := StageKernels(dim, nodes, sorted);
    forall n | 0 <= n < |stages| ensures FloatStage(stages[n]) {
      TargetsDeclared(dim, nodes, sorted, n, finalSlot);
    }
  }
}
