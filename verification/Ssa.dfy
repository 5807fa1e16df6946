/** Slot allocation is static single assignment: each dynamic slot has one writer, and readers come later. */
module Ssa {
  import opened Common
  import opened Model
  import opened Pipeline
  import opened Runtime
  import opened Compile
  import TopoSort

  /** Slots from 32 up to the last 16-bit number. */
  const DYNAMIC_SLOTS: nat := 65504

  function Demand(nodes: seq<NodeSpec>, sorted: seq<nat>): nat
    requires forall i :: 0 <= i < |sorted| ==> sorted[i] < |nodes|
  {
    SlotStart(nodes, sorted, |sorted|) - 32
  }

  /** A compiled order: handles resolve, dependencies come first, every kernel's references exist. */
  ghost predicate Compiled(nodes: seq<NodeSpec>, sorted: seq<nat>) {
    && DistinctIds(nodes) && Storable(nodes) && Ordered(nodes, sorted) && AllResolve(nodes)
    && TopoSort.TopologicalOrder(Edges(nodes), sorted)
    && AllKernels(nodes, sorted)
  }

  lemma {:induction false} StartMonotone(nodes: seq<NodeSpec>, sorted: seq<nat>, i: nat, j: nat)
    requires i < j <= |sorted| && forall i :: 0 <= i < |sorted| ==> sorted[i] < |nodes|
    ensures SlotStart(nodes, sorted, i) + Width(nodes[sorted[i]]) <= SlotStart(nodes, sorted, j)
    decreases j
  {
    if i < j - 1 {
      StartMonotone(nodes, sorted, i, j - 1);
    }
  }

  /** With enough slots the counter never wraps: node j owns a run of its own, from 32 on. */
  lemma OwnRun(nodes: seq<NodeSpec>, sorted: seq<nat>, j: nat)
    requires Ordered(nodes, sorted) && Demand(nodes, sorted) <= DYNAMIC_SLOTS && j < |sorted|
    ensures forall c :: 0 <= c < Width(nodes[sorted[j]]) ==>
      32 <= SlotsAt(nodes, sorted, j)[c] == SlotStart(nodes, sorted, j) + c < SlotStart(nodes, sorted, |sorted|)
  {
    StartMonotone(nodes, sorted, j, |sorted|);
  }

  lemma OwnSlotsDistinct(nodes: seq<NodeSpec>, sorted: seq<nat>, j: nat)
    requires Ordered(nodes, sorted) && Demand(nodes, sorted) <= DYNAMIC_SLOTS && j < |sorted|
    ensures NoDuplicates(SlotsAt(nodes, sorted, j))
    ensures forall s :: s in SlotsAt(nodes, sorted, j) ==> s >= 32
  {
    OwnRun(nodes, sorted, j);
  }

  lemma SlotsDisjoint(nodes: seq<NodeSpec>, sorted: seq<nat>, i: nat, j: nat)
    requires Ordered(nodes, sorted) && Demand(nodes, sorted) <= DYNAMIC_SLOTS && i < j < |sorted|
    ensures forall s :: s in SlotsAt(nodes, sorted, i) ==> s !in SlotsAt(nodes, sorted, j)
  {
    hide SlotsAt, SlotStart;
    OwnRun(nodes, sorted, i);
    OwnRun(nodes, sorted, j);
    StartMonotone(nodes, sorted, i, j);
    forall s | s in SlotsAt(nodes, sorted, i) ensures s !in SlotsAt(nodes, sorted, j) {
      var c :| 0 <= c < |SlotsAt(nodes, sorted, i)| && SlotsAt(nodes, sorted, i)[c] == s;
    }
  }

  /** The handle behind a dependency of an emitted node was emitted before it. */
  lemma DependencyEarlier(nodes: seq<NodeSpec>, sorted: seq<nat>, j: nat, id: string)
    requires Compiled(nodes, sorted) && j < |sorted| && id in DependencyIds(nodes[sorted[j]])
    ensures HandleOf(nodes, id).Some?
    ensures HandleOf(nodes, id).value in sorted && Rank(sorted, HandleOf(nodes, id).value) < j
  {
    var ids := DependencyIds(nodes[sorted[j]]);
    var i :| 0 <= i < |ids| && ids[i] == id;
    assert IdsResolve(nodes, ids);
    var h := HandleOf(nodes, id).value;
    assert Edges(nodes)[sorted[j]][i] == h;
    assert h in Edges(nodes)[sorted[j]];
    var r :| 0 <= r < j && sorted[r] == h;
    RankUnique(sorted, r);
  }

  /** Reads of an emitted node that name another node: the slots that node owns, at an earlier rank. */
  lemma NodeSource(nodes: seq<NodeSpec>, sorted: seq<nat>, j: nat, d: GraphDimension, id: string)
    requires Compiled(nodes, sorted) && j < |sorted| && id in DependencyIds(nodes[sorted[j]])
    requires SourceSlots(nodes, sorted, d, Node(id)).Some?
    ensures HandleOf(nodes, id).Some? && HandleOf(nodes, id).value in sorted
    ensures var r := Rank(sorted, HandleOf(nodes, id).value);
      && r < j && nodes[sorted[r]].id == id && OutputOf(nodes[sorted[r]]) == Position(d)
      && SourceSlots(nodes, sorted, d, Node(id)) == Some(SlotsAt(nodes, sorted, r))
  {
    DependencyEarlier(nodes, sorted, j, id);
  }

  lemma {:induction false} InputAt(nodes: seq<NodeSpec>, sorted: seq<nat>, inputs: seq<string>, i: nat)
    requires Ordered(nodes, sorted) && InputSlots(nodes, sorted, inputs).Some? && i < |inputs|
    ensures HandleOf(nodes, inputs[i]).Some?
    ensures var h := HandleOf(nodes, inputs[i]).value;
      && h in sorted && OutputOf(nodes[h]).Scalar?
      && InputSlots(nodes, sorted, inputs).value[i] == SlotsAt(nodes, sorted, Rank(sorted, h))[0]
    decreases |inputs|
  {
    if i < |inputs| - 1 {
      InputAt(nodes, sorted, inputs[..|inputs| - 1], i);
    }
  }

  /** The i-th input of an emitted combine: the single slot of a scalar node at an earlier rank. */
  lemma NodeInput(nodes: seq<NodeSpec>, sorted: seq<nat>, j: nat, i: nat)
    requires Compiled(nodes, sorted) && j < |sorted| && nodes[sorted[j]].Combine? && i < |nodes[sorted[j]].inputs|
    ensures InputSlots(nodes, sorted, nodes[sorted[j]].inputs).Some?
    ensures HandleOf(nodes, nodes[sorted[j]].inputs[i]).Some?
      && HandleOf(nodes, nodes[sorted[j]].inputs[i]).value in sorted
    ensures var r := Rank(sorted, HandleOf(nodes, nodes[sorted[j]].inputs[i]).value);
      && r < j && nodes[sorted[r]].id == nodes[sorted[j]].inputs[i] && OutputOf(nodes[sorted[r]]).Scalar?
      && InputSlots(nodes, sorted, nodes[sorted[j]].inputs).value[i] == SlotsAt(nodes, sorted, r)[0]
  {
    var inputs := nodes[sorted[j]].inputs;
    assert KernelAt(nodes, sorted, j).Some?;
    InputAt(nodes, sorted, inputs, i);
    assert inputs[i] in DependencyIds(nodes[sorted[j]]);
    DependencyEarlier(nodes, sorted, j, inputs[i]);
  }

  /** A stage writes exactly the slots its node owns. */
  lemma WritesOwn(nodes: seq<NodeSpec>, sorted: seq<nat>, j: nat)
    requires Compiled(nodes, sorted) && j < |sorted|
    ensures KernelAt(nodes, sorted, j).Some? && KernelAt(nodes, sorted, j).value.Shaped()
    ensures !KernelAt(nodes, sorted, j).value.GridInit?
    ensures Outs(KernelAt(nodes, sorted, j).value) == SlotsAt(nodes, sorted, j)
  {
    KernelShaped(nodes, sorted, j);
    assert KernelAt(nodes, sorted, j).Some?;
  }

  ghost predicate WrittenBefore(nodes: seq<NodeSpec>, sorted: seq<nat>, j: nat, slot: u16)
    requires Ordered(nodes, sorted) && j <= |sorted|
  {
    exists i :: 0 <= i < j && slot in SlotsAt(nodes, sorted, i)
  }

  /** A stage reads base coordinates or slots an earlier stage wrote. */
  lemma ReadsEarlier(nodes: seq<NodeSpec>, sorted: seq<nat>, j: nat, slot: u16)
    requires Compiled(nodes, sorted) && j < |sorted|
    requires Ready(KernelAt(nodes, sorted, j).value) && !KernelAt(nodes, sorted, j).value.GridInit?
    requires slot in Ins(KernelAt(nodes, sorted, j).value)
    ensures slot in BaseSlots(3) || WrittenBefore(nodes, sorted, j, slot)
  {
    hide SlotsAt, SlotStart, DependencyIds;
    var node, k := nodes[sorted[j]], KernelAt(nodes, sorted, j).value;
    match node
    case Combine(_, inputs, op, _) =>
      if slot != SLOT_BASE_Y {
        var i :| 0 <= i < |inputs| && k.inputs[i] == slot;
        NodeInput(nodes, sorted, j, i);
      }
    case _ =>
      if node.source.Node? {
        SourceNamed(node);
        NodeSource(nodes, sorted, j, node.dim, node.source.id);
      }
  }

  lemma SourceNamed(node: NodeSpec)
    requires !node.Combine? && node.source.Node?
    ensures node.source.id in DependencyIds(node)
  {}

  /** No two node stages write one slot, and none writes a reserved slot. */
  lemma SingleWriter(nodes: seq<NodeSpec>, sorted: seq<nat>, i: nat, j: nat, slot: u16)
    requires Compiled(nodes, sorted) && Demand(nodes, sorted) <= DYNAMIC_SLOTS && i < |sorted| && j < |sorted|
    requires !KernelAt(nodes, sorted, i).value.GridInit? && slot in Outs(KernelAt(nodes, sorted, i).value)
    requires !KernelAt(nodes, sorted, j).value.GridInit? && slot in Outs(KernelAt(nodes, sorted, j).value)
    ensures i == j && slot >= SLOT_DYNAMIC_START
  {
    WritesOwn(nodes, sorted, i);
    WritesOwn(nodes, sorted, j);
    OwnSlotsDistinct(nodes, sorted, i);
    if i < j {
      SlotsDisjoint(nodes, sorted, i, j);
    } else if j < i {
      SlotsDisjoint(nodes, sorted, j, i);
    }
  }

  /** Every slot below the n-th node's start belongs to one of the first n nodes. */
  lemma {:induction false} SlotOwned(nodes: seq<NodeSpec>, sorted: seq<nat>, n: nat, slot: u16) returns (j: nat)
    requires Ordered(nodes, sorted) && Demand(nodes, sorted) <= DYNAMIC_SLOTS && n <= |sorted|
    requires SLOT_DYNAMIC_START <= slot < SlotStart(nodes, sorted, n)
    ensures j < n && slot in SlotsAt(nodes, sorted, j)
  {
    hide SlotsAt;
    var start := SlotStart(nodes, sorted, n - 1);
    if slot < start {
      j := SlotOwned(nodes, sorted, n - 1, slot);
    } else {
      j := n - 1;
      OwnRun(nodes, sorted, j);
      assert SlotsAt(nodes, sorted, j)[slot - start] == slot;
    }
  }

  /** Every allocated dynamic slot is written by exactly one node stage. */
  lemma OneWriter(nodes: seq<NodeSpec>, sorted: seq<nat>, slot: u16) returns (j: nat)
    requires Compiled(nodes, sorted) && Demand(nodes, sorted) <= DYNAMIC_SLOTS
    requires SLOT_DYNAMIC_START <= slot < SLOT_DYNAMIC_START as nat + Demand(nodes, sorted)
    ensures j < |sorted| && StageWrites(nodes, sorted, j, slot)
    ensures forall i :: 0 <= i < |sorted| && StageWrites(nodes, sorted, i, slot) ==> i == j
  {
    hide KernelAt, Outs, SlotsAt, SlotStart;
    j := SlotOwned(nodes, sorted, |sorted|, slot);
    WritesOwn(nodes, sorted, j);
    forall i | 0 <= i < |sorted| && StageWrites(nodes, sorted, i, slot) ensures i == j {
      SingleWriter(nodes, sorted, i, j, slot);
    }
  }

  ghost predicate StageWrites(nodes: seq<NodeSpec>, sorted: seq<nat>, j: nat, slot: u16)
    requires Ordered(nodes, sorted) && j < |sorted|
  {
    && KernelAt(nodes, sorted, j).Some? && !KernelAt(nodes, sorted, j).value.GridInit?
    && slot in Outs(KernelAt(nodes, sorted, j).value)
  }

  lemma BaseDeclared(dim: GraphDimension, rest: seq<BufferSpec>)
    ensures StageDeclared(BaseBuffers(dim) + rest, InitStage(dim))
  {
    var all := BaseBuffers(dim) + rest;
    assert all[0].slot == SLOT_QUERY_META && all[1].slot == SLOT_QUERY_F32 && all[2].slot == SLOT_QUERY_OFFSETS;
    assert BindingsDeclared(all, InitStage(dim).kernels[0]);
  }

  lemma RunDistinct(n: nat)
    ensures NoDuplicates(Consecutive(32, n)) && (forall s :: s in Consecutive(32, n) ==> s >= 32) <==>
      n <= DYNAMIC_SLOTS
  {
    var run := Consecutive(32, n);
    if n <= DYNAMIC_SLOTS {
      assert forall c :: 0 <= c < n ==> run[c] == 32 + c;
    } else {
      assert run[DYNAMIC_SLOTS] == 0;
      assert run[DYNAMIC_SLOTS] in run;
    }
  }

  lemma DeclaredDistinct(dim: GraphDimension, run: seq<u16>)
    requires NoDuplicates(run) && forall s :: s in run ==> s >= 32
    ensures SlotsDistinct(BaseBuffers(dim) + DynamicBuffers(run))
  {
    var base, all := BaseBuffers(dim), BaseBuffers(dim) + DynamicBuffers(run);
    assert forall i :: 0 <= i < |base| ==> base[i].slot < 32;
    forall i, j | 0 <= i < j < |all| ensures all[i].slot != all[j].slot {
      if j >= |base| {
        assert all[j].slot == run[j - |base|] && run[j - |base|] in run;
      }
    }
  }

  /** A compiled plan passes validate exactly when the graph needs at most 65504 dynamic slots. */
  lemma ValidatesIffFits(dim: GraphDimension, nodes: seq<NodeSpec>, sorted: seq<nat>, finalSlot: u16)
    requires Ordered(nodes, sorted) && Storable(nodes) && AllKernels(nodes, sorted)
    ensures PlanValid(PlanOf(dim, nodes, sorted, finalSlot)) <==> Demand(nodes, sorted) <= DYNAMIC_SLOTS
  {
    hide InitStage, KernelStage, SlotStart, KernelAt, BaseBuffers;
    var plan := PlanOf(dim, nodes, sorted, finalSlot);
    var n := Demand(nodes, sorted);
    var run := Consecutive(32, n);
    RunDistinct(n);
    BaseDeclared(dim, DynamicBuffers(run));
    forall s | 0 <= s < |plan.stages| ensures StageDeclared(plan.buffers, plan.stages[s]) {
      if s > 0 {
        NoBindings(plan.buffers, KernelAt(nodes, sorted, s - 1).value);
      }
    }
    if n <= DYNAMIC_SLOTS {
      DeclaredDistinct(dim, run);
    } else {
      WrappedClash(dim, run);
    }
  }

  lemma NoBindings(buffers: seq<BufferSpec>, k: Kernel)
    requires k.Shaped()
    ensures StageDeclared(buffers, KernelStage(k))
  {}

  /** One slot too many wraps to slot 0, the query metadata. */
  lemma WrappedClash(dim: GraphDimension, run: seq<u16>)
    requires |run| > DYNAMIC_SLOTS && run == Consecutive(32, |run|)
    ensures !SlotsDistinct(BaseBuffers(dim) + DynamicBuffers(run))
  {
    var base, all := BaseBuffers(dim), BaseBuffers(dim) + DynamicBuffers(run);
    assert run[DYNAMIC_SLOTS] == 0;
    assert all[|base| + DYNAMIC_SLOTS].slot == 0 && all[0].slot == 0;
  }
}
