/** compile_graph: handles, order, SSA slots and one encoded kernel per stage. */
module Compile {
  import opened Common
  import opened Model
  import opened Pipeline
  import Codec
  import TopoSort

  datatype Meta = Meta(dimension: GraphDimension, finalSlot: u16)
  type Plan = CompiledPlan<Meta>

  ghost predicate DistinctIds(nodes: seq<NodeSpec>) {
    forall i, j :: 0 <= i < j < |nodes| ==> nodes[i].id != nodes[j].id
  }

  /** Input and parameter counts are stored in 32 bits; longer lists do not fit in memory. */
  predicate Storable(nodes: seq<NodeSpec>) {
    forall h :: 0 <= h < |nodes| && nodes[h].Combine? ==> |nodes[h].inputs| < U32_COUNT && |nodes[h].params| < U32_COUNT
  }

  // ---------------------------------------------------------------- handles and edges

  /** A later node of the same id wins, as in the handle map. */
  function HandleOf(nodes: seq<NodeSpec>, id: string): (r: Option<nat>)
    ensures r.Some? ==> r.value < |nodes| && nodes[r.value].id == id
    ensures r.None? ==> forall h :: 0 <= h < |nodes| ==> nodes[h].id != id
  {
    if nodes == [] then None
    else if nodes[|nodes| - 1].id == id then Some(|nodes| - 1)
    else HandleOf(nodes[..|nodes| - 1], id)
  }

  ghost predicate IdsResolve(nodes: seq<NodeSpec>, ids: seq<string>) {
    forall i :: 0 <= i < |ids| ==> HandleOf(nodes, ids[i]).Some?
  }

  ghost predicate AllResolve(nodes: seq<NodeSpec>) {
    forall h :: 0 <= h < |nodes| ==> IdsResolve(nodes, DependencyIds(nodes[h]))
  }

  ghost function Handles(nodes: seq<NodeSpec>, ids: seq<string>): (r: seq<nat>)
    requires IdsResolve(nodes, ids)
    ensures |r| == |ids| && forall i :: 0 <= i < |ids| ==> r[i] == HandleOf(nodes, ids[i]).value
  {
    seq(|ids|, i requires 0 <= i < |ids| => HandleOf(nodes, ids[i]).value)
  }

  ghost function Edges(nodes: seq<NodeSpec>): (deps: seq<seq<nat>>)
    requires AllResolve(nodes)
    ensures |deps| == |nodes|
    ensures forall h :: 0 <= h < |nodes| ==> deps[h] == Handles(nodes, DependencyIds(nodes[h]))
  {
    seq(|nodes|, h requires 0 <= h < |nodes| => Handles(nodes, DependencyIds(nodes[h])))
  }

  /** handles is the index HandleOf describes. */
  ghost predicate Indexes(handles: map<string, nat>, nodes: seq<NodeSpec>) {
    forall id :: HandleOf(nodes, id) == if id in handles then Some(handles[id]) else None
  }

  method IndexNodes(nodes: seq<NodeSpec>) returns (handles: map<string, nat>)
    ensures Indexes(handles, nodes)
  {
    handles := map[];
    for h := 0 to |nodes|
      invariant Indexes(handles, nodes[..h])
    {
      assert nodes[..h + 1][..h] == nodes[..h];
      handles := handles[nodes[h].id := h];
    }
    assert nodes[..|nodes|] == nodes;
  }

  /** Dependencies of one node; None when a name is missing. */
  method CollectDependencies(nodes: seq<NodeSpec>, handles: map<string, nat>, ids: seq<string>)
    returns (r: Option<seq<nat>>)
    requires Indexes(handles, nodes)
    ensures r.Some? <==> IdsResolve(nodes, ids)
    ensures r.Some? ==> r.value == Handles(nodes, ids)
  {
    var found: seq<nat> := [];
    for i := 0 to |ids|
      invariant |found| == i && forall k :: 0 <= k < i ==> HandleOf(nodes, ids[k]) == Some(found[k])
    {
      assert HandleOf(nodes, ids[i]) == if ids[i] in handles then Some(handles[ids[i]]) else None;
      if ids[i] !in handles {
        return None;
      }
      found := found + [handles[ids[i]]];
    }
    return Some(found);
  }

  method CollectEdges(nodes: seq<NodeSpec>, handles: map<string, nat>) returns (r: Option<seq<seq<nat>>>)
    requires Indexes(handles, nodes)
    ensures r.Some? <==> AllResolve(nodes)
    ensures r.Some? ==> r.value == Edges(nodes)
  {
    var deps: seq<seq<nat>> := [];
    for h := 0 to |nodes|
      invariant |deps| == h
      invariant forall k :: 0 <= k < h ==>
        IdsResolve(nodes, DependencyIds(nodes[k])) && deps[k] == Handles(nodes, DependencyIds(nodes[k]))
    {
      var ds := CollectDependencies(nodes, handles, DependencyIds(nodes[h]));
      if ds.None? {
        return None;
      }
      deps := deps + [ds.value];
    }
    return Some(deps);
  }

  lemma EdgesWellFormed(nodes: seq<NodeSpec>)
    requires AllResolve(nodes)
    ensures TopoSort.WellFormed(Edges(nodes))
  {
    var deps := Edges(nodes);
    forall h, d | 0 <= h < |deps| && d in deps[h] ensures d < |deps| {
      var i :| 0 <= i < |deps[h]| && deps[h][i] == d;
    }
  }

  // ---------------------------------------------------------------- slots

  ghost predicate Ordered(nodes: seq<NodeSpec>, sorted: seq<nat>) {
    NoDuplicates(sorted) && forall j :: 0 <= j < |sorted| ==> sorted[j] < |nodes|
  }

  /** The counter before the j-th emitted node allocates, without its 16-bit wrap. */
  function SlotStart(nodes: seq<NodeSpec>, sorted: seq<nat>, j: nat): (n: nat)
    requires j <= |sorted| && forall i :: 0 <= i < |sorted| ==> sorted[i] < |nodes|
    ensures n >= 32
  {
    if j == 0 then SLOT_DYNAMIC_START as nat else SlotStart(nodes, sorted, j - 1) + Width(nodes[sorted[j - 1]])
  }

  function Wrap(n: nat): u16 {
    n % 0x1_0000
  }

  function Consecutive(start: nat, n: nat): (r: seq<u16>)
    ensures |r| == n && forall c :: 0 <= c < n ==> r[c] == Wrap(start + c)
  {
    seq<u16>(n, c requires 0 <= c < n => Wrap(start + c))
  }

  function SlotsAt(nodes: seq<NodeSpec>, sorted: seq<nat>, j: nat): (r: seq<u16>)
    requires j < |sorted| && forall i :: 0 <= i < |sorted| ==> sorted[i] < |nodes|
    ensures |r| == Width(nodes[sorted[j]])
  {
    Consecutive(SlotStart(nodes, sorted, j), Width(nodes[sorted[j]]))
  }

  function Rank(sorted: seq<nat>, h: nat): (j: nat)
    requires h in sorted
    ensures j < |sorted| && sorted[j] == h
  {
    if sorted[|sorted| - 1] == h then |sorted| - 1
    else
      assert sorted == sorted[..|sorted| - 1] + [sorted[|sorted| - 1]];
      Rank(sorted[..|sorted| - 1], h)
  }

  lemma RankUnique(sorted: seq<nat>, j: nat)
    requires NoDuplicates(sorted) && j < |sorted|
    ensures sorted[j] in sorted && Rank(sorted, sorted[j]) == j
  {}

  /** What the slot tables say of handle h once the first upTo nodes have allocated. */
  function Entry(nodes: seq<NodeSpec>, sorted: seq<nat>, upTo: nat, kind: OutputKind, h: nat): Option<seq<u16>>
    requires upTo <= |sorted| && h < |nodes| && forall i :: 0 <= i < |sorted| ==> sorted[i] < |nodes|
  {
    if h in sorted && Rank(sorted, h) < upTo && OutputOf(nodes[h]) == kind
    then Some(SlotsAt(nodes, sorted, Rank(sorted, h))) else None
  }

  datatype Tables = Tables(positions2: seq<Option<seq<u16>>>, positions3: seq<Option<seq<u16>>>,
                           scalars: seq<Option<seq<u16>>>) {
    function Of(kind: OutputKind): seq<Option<seq<u16>>> {
      match kind case Position(D2) => positions2 case Position(D3) => positions3 case Scalar => scalars
    }

    function With(kind: OutputKind, table: seq<Option<seq<u16>>>): Tables {
      match kind
      case Position(D2) => this.(positions2 := table)
      case Position(D3) => this.(positions3 := table)
      case Scalar => this.(scalars := table)
    }
  }

  ghost predicate RecordsKind(
    table: seq<Option<seq<u16>>>, nodes: seq<NodeSpec>, sorted: seq<nat>, upTo: nat, kind: OutputKind)
    requires upTo <= |sorted| && Ordered(nodes, sorted)
  {
    |table| == |nodes| && forall h :: 0 <= h < |nodes| ==> table[h] == Entry(nodes, sorted, upTo, kind, h)
  }

  ghost predicate Records(t: Tables, nodes: seq<NodeSpec>, sorted: seq<nat>, upTo: nat)
    requires upTo <= |sorted| && Ordered(nodes, sorted)
  {
    forall kind :: RecordsKind(t.Of(kind), nodes, sorted, upTo, kind)
  }

  function DynamicBuffer(slot: u16): BufferSpec {
    BufferSpec(slot, KindF32, Dynamic)
  }

  function DynamicBuffers(slots: seq<u16>): (r: seq<BufferSpec>)
    ensures |r| == |slots| && forall c :: 0 <= c < |r| ==> r[c] == DynamicBuffer(slots[c])
  {
    seq(|slots|, c requires 0 <= c < |slots| => DynamicBuffer(slots[c]))
  }

  function BaseBuffers(dim: GraphDimension): seq<BufferSpec> {
    [BufferSpec(SLOT_QUERY_META, KindU32, Dynamic), BufferSpec(SLOT_QUERY_F32, KindF32, Dynamic),
     BufferSpec(SLOT_QUERY_OFFSETS, KindU32, Dynamic)] + DynamicBuffers(BaseSlots(dim.Arity()))
  }

  lemma ConsecutiveJoin(start: nat, a: nat, b: nat)
    ensures Consecutive(start, a) + Consecutive(start + a, b) == Consecutive(start, a + b)
  {}

  lemma DeclareStep(base: seq<BufferSpec>, start: nat, n: nat)
    requires start >= 32
    ensures base + DynamicBuffers(Consecutive(32, start - 32)) + DynamicBuffers(Consecutive(start, n))
         == base + DynamicBuffers(Consecutive(32, start + n - 32))
  {
    ConsecutiveJoin(32, start - 32, n);
    assert DynamicBuffers(Consecutive(32, start - 32)) + DynamicBuffers(Consecutive(start, n))
      == DynamicBuffers(Consecutive(32, start - 32) + Consecutive(start, n));
  }

  /** allocate_position_slots: n slots off the wrapping 16-bit counter. */
  method AllocateSlots(next: u16, n: nat, ghost start: nat) returns (slots: seq<u16>, next': u16)
    requires next == Wrap(start)
    ensures slots == Consecutive(start, n) && next' == Wrap(start + n)
  {
    slots, next' := [], next;
    for c := 0 to n
      invariant slots == Consecutive(start, c) && next' == Wrap(start + c)
    {
      slots := slots + [next'];
      next' := (next' + 1) % 0x1_0000;
    }
  }

  method AllocateAll(dim: GraphDimension, nodes: seq<NodeSpec>, sorted: seq<nat>)
    returns (t: Tables, buffers: seq<BufferSpec>)
    requires Ordered(nodes, sorted)
    ensures Records(t, nodes, sorted, |sorted|)
    ensures buffers == BaseBuffers(dim) + DynamicBuffers(Consecutive(32, SlotStart(nodes, sorted, |sorted|) - 32))
  {
    hide BaseBuffers, Records, Rank;
    var none: seq<Option<seq<u16>>> := seq(|nodes|, _ => None);
    t := Tables(none, none, none);
    assert Records(t, nodes, sorted, 0) by { NothingRecorded(t, nodes, sorted); }
    buffers := BaseBuffers(dim);
    var next: u16 := SLOT_DYNAMIC_START;
    for j := 0 to |sorted|
      invariant Records(t, nodes, sorted, j)
      invariant next == Wrap(SlotStart(nodes, sorted, j))
      invariant buffers == BaseBuffers(dim) + DynamicBuffers(Consecutive(32, SlotStart(nodes, sorted, j) - 32))
    {
      var h := sorted[j];
      var kind := OutputOf(nodes[h]);
      ghost var start := SlotStart(nodes, sorted, j);
      var slots, next' := AllocateSlots(next, Width(nodes[h]), start);
      RecordStep(t, nodes, sorted, j);
      t := t.With(kind, t.Of(kind)[h := Some(slots)]);
      DeclareStep(BaseBuffers(dim), start, Width(nodes[h]));
      buffers := buffers + DynamicBuffers(slots);
      next := next';
    }
  }

  lemma NothingRecorded(t: Tables, nodes: seq<NodeSpec>, sorted: seq<nat>)
    requires Ordered(nodes, sorted)
    requires forall kind :: t.Of(kind) == seq(|nodes|, _ => None)
    ensures Records(t, nodes, sorted, 0)
  {}

  lemma RecordStep(t: Tables, nodes: seq<NodeSpec>, sorted: seq<nat>, j: nat)
    requires Ordered(nodes, sorted) && j < |sorted| && Records(t, nodes, sorted, j)
    ensures var h := sorted[j];
      var kind := OutputOf(nodes[h]);
      RecordsKind(t.Of(kind), nodes, sorted, j, kind)
        && Records(t.With(kind, t.Of(kind)[h := Some(SlotsAt(nodes, sorted, j))]), nodes, sorted, j + 1)
  {
    hide SlotsAt;
    RankUnique(sorted, j);
    var h := sorted[j];
    var kind := OutputOf(nodes[h]);
    assert RecordsKind(t.Of(kind), nodes, sorted, j, kind);
    var t' := t.With(kind, t.Of(kind)[h := Some(SlotsAt(nodes, sorted, j))]);
    forall k: OutputKind ensures RecordsKind(t'.Of(k), nodes, sorted, j + 1, k) {
      assert RecordsKind(t.Of(k), nodes, sorted, j, k);
      assert t'.Of(k) == if k == kind then t.Of(kind)[h := Some(SlotsAt(nodes, sorted, j))] else t.Of(k);
      forall i: nat | i < |nodes| ensures t'.Of(k)[i] == Entry(nodes, sorted, j + 1, k, i) {
        if i in sorted && Rank(sorted, i) == j {
          assert i == h;
        }
      }
    }
  }

  // ---------------------------------------------------------------- kernels

  /** The finished slot of a handle, as the tables give it to later kernels. */
  function SlotsFor(nodes: seq<NodeSpec>, sorted: seq<nat>, kind: OutputKind, h: nat): Option<seq<u16>>
    requires h < |nodes| && forall i :: 0 <= i < |sorted| ==> sorted[i] < |nodes|
  {
    Entry(nodes, sorted, |sorted|, kind, h)
  }

  function SourceSlots(nodes: seq<NodeSpec>, sorted: seq<nat>, d: GraphDimension,
                       source: PositionSource): Option<seq<u16>>
    requires forall i :: 0 <= i < |sorted| ==> sorted[i] < |nodes|
  {
    match source
    case Base => Some(BaseSlots(d.Arity()))
    case Node(id) =>
      match HandleOf(nodes, id)
      case None => None
      case Some(h) => SlotsFor(nodes, sorted, Position(d), h)
  }

  /** Slots of scalar inputs; None when one is missing, unsorted or a position. */
  function InputSlots(nodes: seq<NodeSpec>, sorted: seq<nat>, inputs: seq<string>): (r: Option<seq<u16>>)
    requires forall i :: 0 <= i < |sorted| ==> sorted[i] < |nodes|
    ensures r.Some? ==> |r.value| == |inputs|
  {
    if inputs == [] then Some([])
    else
      match InputSlots(nodes, sorted, inputs[..|inputs| - 1])
      case None => None
      case Some(init) =>
        match HandleOf(nodes, inputs[|inputs| - 1])
        case None => None
        case Some(h) =>
          match SlotsFor(nodes, sorted, Scalar, h)
          case None => None
          case Some(slots) => Some(init + [slots[0]])
  }

  /** The kernel of the j-th emitted node; None when its references panic. */
  function KernelAt(nodes: seq<NodeSpec>, sorted: seq<nat>, j: nat): Option<Kernel>
    requires j < |sorted| && forall i :: 0 <= i < |sorted| ==> sorted[i] < |nodes|
  {
    var own := SlotsAt(nodes, sorted, j);
    match nodes[sorted[j]]
    case Warp(_, d, source, noise) =>
      (match SourceSlots(nodes, sorted, d, source)
       case None => None
       case Some(s) => Some(WarpKernel(s, own, noise)))
    case Sample(_, d, source, noise) =>
      (match SourceSlots(nodes, sorted, d, source)
       case None => None
       case Some(s) => Some(SampleKernel(s, own[0], noise)))
    case Combine(_, inputs, op, params) =>
      match InputSlots(nodes, sorted, inputs)
      case None => None
      case Some(ins) => Some(CombineKernel(op, ins, own[0], params))
  }

  lemma KernelShaped(nodes: seq<NodeSpec>, sorted: seq<nat>, j: nat)
    requires Ordered(nodes, sorted) && Storable(nodes) && j < |sorted| && KernelAt(nodes, sorted, j).Some?
    ensures KernelAt(nodes, sorted, j).value.Shaped() && !KernelAt(nodes, sorted, j).value.GridInit?
  {
    hide SlotStart;
  }

  function KernelStage(k: Kernel): StageSpec
    requires k.Shaped()
  {
    StageSpec([KernelSpec(KindOf(TagOfKernel(k)), Codec.EncodePayload(k), [])])
  }

  /** The first stage names the query buffers it reads. */
  function InitStage(dim: GraphDimension): StageSpec {
    StageSpec([KernelSpec(if dim.D2? then 0xF001 else 0xF002, [],
      [BufferBinding(SLOT_QUERY_META, Read), BufferBinding(SLOT_QUERY_F32, Read),
       BufferBinding(SLOT_QUERY_OFFSETS, Read)])])
  }

  ghost predicate AllKernels(nodes: seq<NodeSpec>, sorted: seq<nat>)
    requires Ordered(nodes, sorted)
  {
    forall j :: 0 <= j < |sorted| ==> KernelAt(nodes, sorted, j).Some?
  }

  ghost function KernelStages(nodes: seq<NodeSpec>, sorted: seq<nat>): (r: seq<StageSpec>)
    requires Ordered(nodes, sorted) && Storable(nodes) && AllKernels(nodes, sorted)
    ensures |r| == |sorted|
    ensures forall j :: 0 <= j < |sorted| ==>
      KernelAt(nodes, sorted, j).value.Shaped() && r[j] == KernelStage(KernelAt(nodes, sorted, j).value)
  {
    forall j | 0 <= j < |sorted| ensures KernelAt(nodes, sorted, j).value.Shaped() { KernelShaped(nodes, sorted, j); }
    seq(|sorted|, j requires 0 <= j < |sorted| => KernelStage(KernelAt(nodes, sorted, j).value))
  }

  /** The plan compile_graph returns for a given order. */
  ghost function PlanOf(dim: GraphDimension, nodes: seq<NodeSpec>, sorted: seq<nat>, finalSlot: u16): Plan
    requires Ordered(nodes, sorted) && Storable(nodes) && AllKernels(nodes, sorted)
  {
    CompiledPlan(
      BaseBuffers(dim) + DynamicBuffers(Consecutive(32, SlotStart(nodes, sorted, |sorted|) - 32)),
      [InitStage(dim)] + KernelStages(nodes, sorted), [], Meta(dim, finalSlot))
  }

  /** Everything that must resolve for compile_graph not to panic, in terms of handles. */
  ghost predicate Compiles(finalField: string, nodes: seq<NodeSpec>, sorted: seq<nat>)
    requires Ordered(nodes, sorted)
  {
    && AllResolve(nodes) && HandleOf(nodes, finalField).Some?
    && AllKernels(nodes, sorted)
    && SlotsFor(nodes, sorted, Scalar, HandleOf(nodes, finalField).value).Some?
  }

  method EncodeStage(k: Kernel) returns (stage: StageSpec)
    requires k.Shaped()
    ensures stage == KernelStage(k)
  {
    var writer := new Codec.PayloadWriter();
    writer.Encode(k);
    stage := StageSpec([KernelSpec(KindOf(TagOfKernel(k)), writer.bytes, [])]);
  }

  method ResolveInputs(nodes: seq<NodeSpec>, handles: map<string, nat>, ghost sorted: seq<nat>, t: Tables,
                       inputs: seq<string>)
    returns (r: Option<seq<u16>>)
    requires Ordered(nodes, sorted) && Indexes(handles, nodes) && Records(t, nodes, sorted, |sorted|)
    ensures r == InputSlots(nodes, sorted, inputs)
  {
    var slots: seq<u16> := [];
    assert RecordsKind(t.Of(Scalar), nodes, sorted, |sorted|, Scalar);
    for i := 0 to |inputs|
      invariant InputSlots(nodes, sorted, inputs[..i]) == Some(slots)
    {
      assert inputs[..i + 1][..i] == inputs[..i];
      assert HandleOf(nodes, inputs[i]) == if inputs[i] in handles then Some(handles[inputs[i]]) else None;
      if inputs[i] !in handles || t.scalars[handles[inputs[i]]].None? {
        InputsFail(nodes, sorted, inputs, i + 1);
        return None;
      }
      slots := slots + [t.scalars[handles[inputs[i]]].value[0]];
    }
    assert inputs[..|inputs|] == inputs;
    return Some(slots);
  }

  lemma {:induction false} InputsFail(nodes: seq<NodeSpec>, sorted: seq<nat>, inputs: seq<string>, i: nat)
    requires i <= |inputs| && forall k :: 0 <= k < |sorted| ==> sorted[k] < |nodes|
    requires InputSlots(nodes, sorted, inputs[..i]).None?
    ensures InputSlots(nodes, sorted, inputs).None?
    decreases |inputs|
  {
    if i < |inputs| {
      assert inputs[..|inputs| - 1][..i] == inputs[..i];
      InputsFail(nodes, sorted, inputs[..|inputs| - 1], i);
    } else {
      assert inputs[..i] == inputs;
    }
  }

  method ResolveSource(nodes: seq<NodeSpec>, handles: map<string, nat>, ghost sorted: seq<nat>, t: Tables,
                       d: GraphDimension, source: PositionSource) returns (r: Option<seq<u16>>)
    requires Ordered(nodes, sorted) && Indexes(handles, nodes) && Records(t, nodes, sorted, |sorted|)
    ensures r == SourceSlots(nodes, sorted, d, source)
  {
    match source
    case Base => r := Some(BaseSlots(d.Arity()));
    case Node(id) =>
      assert HandleOf(nodes, id) == if id in handles then Some(handles[id]) else None;
      assert RecordsKind(t.Of(Position(d)), nodes, sorted, |sorted|, Position(d));
      r := if id in handles then t.Of(Position(d))[handles[id]] else None;
  }

  method ResolveKernel(nodes: seq<NodeSpec>, handles: map<string, nat>, sorted: seq<nat>, t: Tables, j: nat)
    returns (r: Option<Kernel>)
    requires Ordered(nodes, sorted) && j < |sorted| && Indexes(handles, nodes) && Records(t, nodes, sorted, |sorted|)
    ensures r == KernelAt(nodes, sorted, j)
  {
    hide SlotsAt, Indexes, SourceSlots, InputSlots;
    var node := nodes[sorted[j]];
    var kind := OutputOf(node);
    RankUnique(sorted, j);
    assert RecordsKind(t.Of(kind), nodes, sorted, |sorted|, kind);
    var own := t.Of(kind)[sorted[j]].value;
    match node {
      case Warp(_, d, source, noise) =>
        var s := ResolveSource(nodes, handles, sorted, t, d, source);
        r := if s.None? then None else Some(WarpKernel(s.value, own, noise));
      case Sample(_, d, source, noise) =>
        var s := ResolveSource(nodes, handles, sorted, t, d, source);
        r := if s.None? then None else Some(SampleKernel(s.value, own[0], noise));
      case Combine(_, inputs, op, params) =>
        var ins := ResolveInputs(nodes, handles, sorted, t, inputs);
        r := if ins.None? then None else Some(CombineKernel(op, ins.value, own[0], params));
    }
  }

  method EmitStages(dim: GraphDimension, nodes: seq<NodeSpec>, handles: map<string, nat>, sorted: seq<nat>, t: Tables)
    returns (r: Option<seq<StageSpec>>)
    requires Ordered(nodes, sorted) && Storable(nodes) && Indexes(handles, nodes) && Records(t, nodes, sorted, |sorted|)
    ensures r.Some? <==> AllKernels(nodes, sorted)
    ensures r.Some? ==> r.value == [InitStage(dim)] + KernelStages(nodes, sorted)
  {
    hide KernelAt, Indexes, Records, KernelStage, InitStage;
    var stages := [InitStage(dim)];
    for j := 0 to |sorted|
      invariant |stages| == j + 1 && stages[0] == InitStage(dim)
      invariant forall i :: 0 <= i < j ==>
        && KernelAt(nodes, sorted, i).Some? && KernelAt(nodes, sorted, i).value.Shaped()
        && stages[i + 1] == KernelStage(KernelAt(nodes, sorted, i).value)
    {
      var kernel := ResolveKernel(nodes, handles, sorted, t, j);
      if kernel.None? {
        return None;
      }
      KernelShaped(nodes, sorted, j);
      var stage := EncodeStage(kernel.value);
      stages := stages + [stage];
    }
    assert stages[1..] == KernelStages(nodes, sorted);
    return Some(stages);
  }

  /**
   * compile_graph over the live nodes in slot order. A missing name, an ill-kinded or unsorted
   * reference and an unusable final field all panic; otherwise the plan is PlanOf the emitted order.
   */
  method CompileGraph(dim: GraphDimension, finalField: string, nodes: seq<NodeSpec>)
    returns (r: Result<Plan>, ghost sorted: seq<nat>)
    requires Storable(nodes)
    ensures Ordered(nodes, sorted)
    ensures AllResolve(nodes) && HandleOf(nodes, finalField).Some? ==> TopoSort.TopologicalOrder(Edges(nodes), sorted)
    ensures AllResolve(nodes) && HandleOf(nodes, finalField).Some? ==> TopoSort.BreadthFirst(Edges(nodes), sorted)
    ensures r.Ok? <==> Compiles(finalField, nodes, sorted)
    ensures r.Ok? ==>
      r.value == PlanOf(dim, nodes, sorted, SlotsFor(nodes, sorted, Scalar, HandleOf(nodes, finalField).value).value[0])
    ensures r.Err? ==> r.error == Panicked
  {
    hide SlotsFor, AllKernels, PlanOf;
    sorted := [];
    var handles := IndexNodes(nodes);
    var deps := CollectEdges(nodes, handles);
    if deps.None? {
      return Err(Panicked), sorted;
    }
    assert HandleOf(nodes, finalField) == if finalField in handles then Some(handles[finalField]) else None;
    if finalField !in handles {
      return Err(Panicked), sorted;
    }
    EdgesWellFormed(nodes);
    var order := TopoSort.Sort(deps.value);
    sorted := order;
    r := EmitPlan(dim, nodes, handles, order, handles[finalField]);
  }

  method EmitPlan(dim: GraphDimension, nodes: seq<NodeSpec>, handles: map<string, nat>, sorted: seq<nat>,
                  finalHandle: nat)
    returns (r: Result<Plan>)
    requires Ordered(nodes, sorted) && Storable(nodes) && Indexes(handles, nodes) && finalHandle < |nodes|
    ensures r.Ok? <==> AllKernels(nodes, sorted) && SlotsFor(nodes, sorted, Scalar, finalHandle).Some?
    ensures r.Ok? ==> r.value == PlanOf(dim, nodes, sorted, SlotsFor(nodes, sorted, Scalar, finalHandle).value[0])
    ensures r.Err? ==> r.error == Panicked
  {
    hide Indexes, AllKernels, KernelStages, Entry;
    var tables, buffers := AllocateAll(dim, nodes, sorted);
    var stages := EmitStages(dim, nodes, handles, sorted, tables);
    if stages.None? {
      return Err(Panicked);
    }
    assert RecordsKind(tables.Of(Scalar), nodes, sorted, |sorted|, Scalar);
    var final := tables.scalars[finalHandle];
    if final.None? {
      return Err(Panicked);
    }
    ScalarEntry(nodes, sorted, finalHandle);
    r := Ok(CompiledPlan(buffers, stages.value, [], Meta(dim, final.value[0])));
  }

  lemma ScalarEntry(nodes: seq<NodeSpec>, sorted: seq<nat>, h: nat)
    requires Ordered(nodes, sorted) && h < |nodes|
    requires Entry(nodes, sorted, |sorted|, Scalar, h).Some?
    ensures |Entry(nodes, sorted, |sorted|, Scalar, h).value| == 1
  {}

  // ---------------------------------------------------------------- the plan, slot by slot

  /** The kind a node's kernel is emitted with. */
  predicate KindOfNode(node: NodeSpec, kind: u32) {
    match node
    case Warp(_, d, _, _) => kind == if d.D2? then 0xF100 else 0xF101
    case Sample(_, d, _, _) => kind == if d.D2? then 0xF200 else 0xF201
    case Combine(_, _, _, _) => kind == 0xF300
  }

  /**
   * A compiled plan declares the query buffers 0 to 2, the base coordinates from 10 on and the dynamic slots from 32
   * on, in this order.
   */
  lemma PlanBuffersListed(dim: GraphDimension, nodes: seq<NodeSpec>, sorted: seq<nat>, finalSlot: u16)
    requires Ordered(nodes, sorted) && Storable(nodes) && AllKernels(nodes, sorted)
    ensures var bs, axes := PlanOf(dim, nodes, sorted, finalSlot).buffers, if dim.D2? then 2 else 3;
      && |bs| >= 3 + axes
      && bs[0] == BufferSpec(0, KindU32, Dynamic) && bs[1] == BufferSpec(1, KindF32, Dynamic)
      && bs[2] == BufferSpec(2, KindU32, Dynamic)
      && (forall i :: 3 <= i < 3 + axes ==> bs[i] == BufferSpec(7 + i, KindF32, Dynamic))
      && (forall i :: 3 + axes <= i < |bs| ==>
           bs[i] == BufferSpec((32 + i - 3 - axes) % 0x1_0000, KindF32, Dynamic))
  {
    hide KernelStages, SlotStart;
    var base, n := BaseBuffers(dim), SlotStart(nodes, sorted, |sorted|) - 32;
    assert PlanOf(dim, nodes, sorted, finalSlot).buffers == base + DynamicBuffers(Consecutive(32, n));
    assert forall a :: 0 <= a < |BaseSlots(dim.Arity())| ==> BaseSlots(dim.Arity())[a] == 10 + a;
  }

  /** Its first stage initialises the grid from the query buffers, and stage j + 1 is the one kernel of node j. */
  lemma PlanStagesListed(dim: GraphDimension, nodes: seq<NodeSpec>, sorted: seq<nat>, finalSlot: u16)
    requires Ordered(nodes, sorted) && Storable(nodes) && AllKernels(nodes, sorted)
    ensures var plan := PlanOf(dim, nodes, sorted, finalSlot);
      && plan.statics == [] && plan.meta == Meta(dim, finalSlot) && |plan.stages| == |sorted| + 1
      && plan.stages[0].kernels == [KernelSpec(if dim.D2? then 0xF001 else 0xF002, [],
           [BufferBinding(0, Read), BufferBinding(1, Read), BufferBinding(2, Read)])]
      && forall j :: 0 <= j < |sorted| ==>
           && |plan.stages[j + 1].kernels| == 1 && plan.stages[j + 1].kernels[0].bindings == []
           && KindOfNode(nodes[sorted[j]], plan.stages[j + 1].kernels[0].kind)
  {
    hide Codec.EncodePayload, KernelAt, SlotStart, AllKernels, KindOfNode;
    var plan := PlanOf(dim, nodes, sorted, finalSlot);
    forall j | 0 <= j < |sorted|
      ensures |plan.stages[j + 1].kernels| == 1 && plan.stages[j + 1].kernels[0].bindings == []
      ensures KindOfNode(nodes[sorted[j]], plan.stages[j + 1].kernels[0].kind)
    {
      NodeKind(nodes, sorted, j);
      assert plan.stages[j + 1] == KernelStage(KernelAt(nodes, sorted, j).value);
    }
  }

  lemma NodeKind(nodes: seq<NodeSpec>, sorted: seq<nat>, j: nat)
    requires Ordered(nodes, sorted) && Storable(nodes) && AllKernels(nodes, sorted) && j < |sorted|
    ensures KernelAt(nodes, sorted, j).Some? && KernelAt(nodes, sorted, j).value.Shaped()
    ensures KindOfNode(nodes[sorted[j]], KindOf(TagOfKernel(KernelAt(nodes, sorted, j).value)))
  {
    hide SlotStart;
    KernelShaped(nodes, sorted, j);
  }
}
