/** One stack: live planner state, the frozen version compiled from it, updates and inline queries. */
module StackCore {
  import opened Common
  import opened Model
  import opened GraphState
  import opened Semantics
  import opened Pipeline
  import opened Packet
  import opened Grid
  import opened Runtime
  import opened Compile
  import opened Ssa
  import opened Backend
  import opened Inline
  import opened Compiler
  import opened Results
  import Kernels
  import PacketCheck
  import TopoSort

  datatype Version = Version(id: nat, plan: Plan, stages: seq<seq<Kernel>>)

  /** A version is the compile of some listing of s. */
  ghost predicate Frozen(v: Version, s: State, nodes: seq<NodeSpec>, sorted: seq<nat>) {
    && CompileOf(s, nodes, sorted) && Storable(nodes) && Compiles(s.finalField, nodes, sorted) && Accepted(s)
    && v.plan == PlanFor(s, nodes, sorted) && Prepared(v.plan.stages) == Ok(v.stages)
    && forall i :: 0 <= i < |v.stages| ==> Shaped(v.stages[i])
  }

  /** compile, validate and prepare: succeeds exactly on accepted states, while a prepare permit is granted. */
  method CompileState(state: FastNoiseState, id: nat, permitted: bool)
    returns (r: Result<Version>, ghost nodes: seq<NodeSpec>, ghost sorted: seq<nat>)
    requires state.Valid() && StorableGraph(state.Value().nodes)
    ensures r.Ok? <==> permitted && Accepted(state.Value())
    ensures Accepted(state.Value()) && !permitted ==> r == Err(ExecutorShutdown)
    ensures r.Ok? ==> r.value.id == id && Frozen(r.value, state.Value(), nodes, sorted)
  {
    hide Compiles, Accepted, PlanFor, Lists, AllResolve, PlanValid, Prepared, TopoSort.TopologicalOrder;
    ghost var s := state.Value();
    var list := state.Collect();
    nodes := list;
    StorableList(list, s.nodes);
    var compiled;
    compiled, sorted := CompileGraph(state.dimension, state.finalField, list);
    assert CompileOf(s, nodes, sorted);
    AcceptedExact(s, nodes, sorted);
    if compiled.Err? {
      return Err(compiled.error), nodes, sorted;
    }
    assert compiled.value == PlanFor(s, nodes, sorted) by { PlanNamed(s, nodes, sorted, compiled.value); }
    var valid := Validate(compiled.value);
    if valid.Err? {
      return Err(valid.error), nodes, sorted;
    }
    if !permitted {
      return Err(ExecutorShutdown), nodes, sorted;
    }
    PlanPrepares(s, nodes, sorted);
    var prepared := Prepare(compiled.value);
    r := Ok(Version(id, compiled.value, prepared.value));
  }

  lemma StorableList(nodes: seq<NodeSpec>, g: Graph)
    requires Lists(nodes, g) && StorableGraph(g)
    ensures Storable(nodes)
  {}

  lemma PlanNamed(s: State, nodes: seq<NodeSpec>, sorted: seq<nat>, plan: Plan)
    requires Storable(nodes) && Ordered(nodes, sorted) && Compiles(s.finalField, nodes, sorted)
    requires plan
      == PlanOf(s.dim, nodes, sorted, SlotsFor(nodes, sorted, Scalar, HandleOf(nodes, s.finalField).value).value[0])
    ensures plan == PlanFor(s, nodes, sorted)
  {}

  lemma PlanPrepares(s: State, nodes: seq<NodeSpec>, sorted: seq<nat>)
    requires Storable(nodes) && Ordered(nodes, sorted) && Compiles(s.finalField, nodes, sorted)
    ensures Prepared(PlanFor(s, nodes, sorted).stages).Ok?
    ensures |Prepared(PlanFor(s, nodes, sorted).stages).value| == |PlanFor(s, nodes, sorted).stages|
    ensures forall i :: 0 <= i < |Prepared(PlanFor(s, nodes, sorted).stages).value| ==>
      Shaped(Prepared(PlanFor(s, nodes, sorted).stages).value[i])
  {
    hide AllKernels, FinalSlot, Prepared, Shaped, KernelStages;
    PrepareRecovers(s.dim, nodes, sorted, FinalSlot(s.finalField, nodes, sorted));
  }

  /** The value of one batch against a frozen version: all the async path may return too. */
  ghost function Returned(ops: Ops, v: Version, queries: seq<ChunkQuery>, view: View): Result<seq<seq<f32>>>
    requires forall q :: 0 <= q < |queries| ==> queries[q].Valid()
  {
    Executed(ops, v.plan, v.stages, queries, view)
  }

  lemma FrozenReturns(
    ops: Ops, v: Version, s: State, nodes: seq<NodeSpec>, sorted: seq<nat>, queries: seq<ChunkQuery>, view: View)
    requires Frozen(v, s, nodes, sorted) && forall q :: 0 <= q < |queries| ==> queries[q].Valid()
    ensures Returned(ops, v, queries, view) == Answered(ops, s, nodes, sorted, queries, view)
  {
    hide CompileOf, Compiles, Accepted, PlanFor, Prepared, Executed;
  }

  /** A frozen version is correct for the state it was compiled from. */
  lemma FrozenAnswers(
    ops: Ops, v: Version, s: State, nodes: seq<NodeSpec>, sorted: seq<nat>, queries: seq<ChunkQuery>, view: View)
    requires Frozen(v, s, nodes, sorted) && forall q :: 0 <= q < |queries| ==> queries[q].Valid()
    ensures Correct(ops, s, queries, view, Returned(ops, v, queries, view))
  {
    hide CompileOf, Compiles, Accepted, PlanFor, Prepared, Correct, Executed;
    StateCorrect(ops, s, nodes, sorted, queries, view);
  }

  /** No packet whose leftovers have the right kinds is refused by the debug check. */
  lemma FrozenNotRefused(
    ops: Ops, v: Version, s: State, nodes: seq<NodeSpec>, sorted: seq<nat>, queries: seq<ChunkQuery>, view: View)
    requires Frozen(v, s, nodes, sorted) && ValidBatch(s.dim, queries) && Kinded(view)
    ensures Encoded(s.dim, queries, Loaded(Cleared(view), v.plan.statics)).Ok?
    ensures !Refused(ops, v.plan, v.stages, Encoded(s.dim, queries, Loaded(Cleared(view), v.plan.statics)).value)
  {
    hide CompileOf, Compiles, Accepted, Prepared, AllKernels, FinalSlot, Refused, Encoded, StageKernels, KernelStages;
    hide Compiled, Resolves;
    AcceptedResolves(s, nodes, sorted);
    CompiledParts(s, nodes, sorted);
    ResolvesCompiled(s, nodes, sorted);
    PrepareRecovers(s.dim, nodes, sorted, FinalSlot(s.finalField, nodes, sorted));
    PacketCheck.NeverRefused(ops, s.dim, nodes, sorted, FinalSlot(s.finalField, nodes, sorted), queries, view);
  }

  /** Every run of a frozen version keeps the kinds of the packet it runs on. */
  lemma FrozenKinded(v: Version, s: State, nodes: seq<NodeSpec>, sorted: seq<nat>)
    requires Frozen(v, s, nodes, sorted)
    ensures KindedPlan(v.plan, v.stages)
  {
    hide CompileOf, Compiles, Accepted, Prepared, AllKernels, FinalSlot, StageKernels, KernelStages, Compiled, Resolves;
    hide KindedPlan;
    AcceptedResolves(s, nodes, sorted);
    CompiledParts(s, nodes, sorted);
    ResolvesCompiled(s, nodes, sorted);
    PrepareRecovers(s.dim, nodes, sorted, FinalSlot(s.finalField, nodes, sorted));
    PacketCheck.CompiledKinded(s.dim, nodes, sorted, FinalSlot(s.finalField, nodes, sorted));
  }

  lemma ResolvesCompiled(s: State, nodes: seq<NodeSpec>, sorted: seq<nat>)
    requires Resolves(s.nodes, s.finalField, nodes, sorted)
    ensures Compiled(nodes, sorted) && Demand(nodes, sorted) <= DYNAMIC_SLOTS
  {}

  lemma FrozenShape(v: Version, s: State, nodes: seq<NodeSpec>, sorted: seq<nat>)
    requires Frozen(v, s, nodes, sorted)
    ensures v.plan.meta.dimension == s.dim && |v.stages| == |v.plan.stages|
    ensures forall i :: 0 <= i < |v.stages| ==> Shaped(v.stages[i])
  {
    hide CompileOf, Compiles, Accepted, FinalSlot, KernelStages, AllKernels;
  }

  class Stack {
    const ops: Ops
    const debug: bool
    var state: FastNoiseState
    var version: Version
    var nextVersionId: nat
    var currentVersionId: nat

    /** The state value the current version was compiled from, and that compile. */
    ghost var source: State
    ghost var nodes: seq<NodeSpec>
    ghost var sorted: seq<nat>

    ghost predicate Valid()
      reads this, state, state.nodes
    {
      && state.Valid()
      && Frozen(version, source, nodes, sorted)
      && version.id == currentVersionId < nextVersionId
    }

    /** Everything an update may change besides the live state. */
    ghost function Deployed(): (Version, nat, nat, State)
      reads this
    {
      (version, currentVersionId, nextVersionId, source)
    }

    constructor (ops: Ops, debug: bool, state: FastNoiseState, version: Version, ghost nodes: seq<NodeSpec>,
                 ghost sorted: seq<nat>)
      requires state.Valid() && version.id == 1 && Frozen(version, state.Value(), nodes, sorted)
      ensures Valid() && this.state == state && this.version == version && source == state.Value()
    {
      hide Accepted, Frozen;
      this.ops, this.debug, this.state, this.version := ops, debug, state, version;
      this.nodes, this.sorted, this.source := nodes, sorted, state.Value();
      nextVersionId, currentVersionId := 2, 1;
    }

    /** Change the live state without recompiling. */
    method Apply(changes: seq<Change>)
      requires Valid()
      modifies state, state.nodes
      ensures Valid() && Deployed() == old(Deployed())
      ensures state.Value() == ChangedAll(old(state.Value()), changes)
      ensures LastChangesHold(old(state.Value()), changes, state.Value())
    {
      hide LastChangesHold;
      state.Apply(changes);
    }

    /** Reset the live state without recompiling. */
    method Replace(dim: GraphDimension, finalField: string, specNodes: seq<NodeSpec>)
      requires Valid()
      modifies state, state.nodes
      ensures Valid() && Deployed() == old(Deployed())
      ensures state.Value() == State(dim, finalField, NodesOf(specNodes))
      ensures LastNodesHold(specNodes, state.Value().nodes)
    {
      hide LastNodesHold;
      state.ResetFromSpec(dim, finalField, specNodes);
    }

    /** compile_from_state, with the version swap: all or nothing. */
    method CompileFrom(from: FastNoiseState, permitted: bool) returns (r: Result<nat>)
      requires Valid() && from.Valid() && StorableGraph(from.Value().nodes)
      modifies this`version, this`nextVersionId, this`currentVersionId, this`source, this`nodes, this`sorted
      ensures Valid()
      ensures r.Ok? <==> permitted && Accepted(old(from.Value()))
      ensures Accepted(old(from.Value())) && !permitted ==> r == Err(ExecutorShutdown)
      ensures r.Ok? ==>
        version.id == r.value == old(nextVersionId) && nextVersionId == r.value + 1 && source == old(from.Value())
      ensures r.Err? ==> Deployed() == old(Deployed())
    {
      hide Accepted, Frozen, StorableGraph;
      var compiled, list, order := CompileState(from, nextVersionId, permitted);
      if compiled.Err? {
        return Err(compiled.error);
      }
      nextVersionId := nextVersionId + 1;
      version, source, nodes, sorted := compiled.value, from.Value(), list, order;
      currentVersionId := version.id;
      return Ok(version.id);
    }

    method Recompile(permitted: bool) returns (r: Result<nat>)
      requires Valid() && StorableGraph(state.Value().nodes)
      modifies this`version, this`nextVersionId, this`currentVersionId, this`source, this`nodes, this`sorted
      ensures Valid() && state.Value() == old(state.Value())
      ensures r.Ok? <==> permitted && Accepted(state.Value())
      ensures Accepted(state.Value()) && !permitted ==> r == Err(ExecutorShutdown)
      ensures r.Ok? ==> version.id == r.value == old(nextVersionId) > old(currentVersionId) && source == state.Value()
      ensures r.Err? ==> Deployed() == old(Deployed())
    {
      hide Accepted, Frozen, StorableGraph, IndexAgrees, FastNoiseState.Value;
      r := CompileFrom(state, permitted);
    }

    /** Transactional update: on failure state, version and ids are exactly as before. */
    method Update(changes: seq<Change>, permitted: bool) returns (r: Result<nat>)
      requires Valid() && StorableGraph(ChangedAll(state.Value(), changes).nodes)
      modifies this
      ensures Valid()
      ensures r.Ok? <==> permitted && Accepted(ChangedAll(old(state.Value()), changes))
      ensures Accepted(ChangedAll(old(state.Value()), changes)) && !permitted ==> r == Err(ExecutorShutdown)
      ensures r.Ok? ==> state.Value() == source == ChangedAll(old(state.Value()), changes)
      ensures r.Ok? ==> LastChangesHold(old(state.Value()), changes, state.Value())
      ensures r.Ok? ==> version.id == r.value == old(nextVersionId) > old(currentVersionId)
      ensures r.Err? ==> state == old(state) && state.Value() == old(state.Value()) && Deployed() == old(Deployed())
    {
      hide Accepted, Frozen, StorableGraph, Changed, ChangedAll, IndexAgrees;
      hide FastNoiseState.Value, LastChangesHold;
      var next := UpdatedState(state, changes);
      r := CompileFrom(next, permitted);
      if r.Ok? {
        state := next;
      }
    }

    /** resolve_inline_with: a single query takes the one-query path. */
    method Resolve(queries: seq<ChunkQuery>, packet: JobPacket, cancel: CancelFlag) returns (r: Result<seq<seq<f32>>>)
      requires Valid() && packet.Valid() && forall q :: 0 <= q < |queries| ==> queries[q].Valid()
      modifies packet, cancel
      ensures packet.Valid() && cancel.polls >= old(cancel.polls)
      ensures r.Ok? ==> Kernels.Clear(cancel, old(cancel.polls))
      ensures Kinded(old(packet.Abstract())) ==> Kinded(packet.Abstract())
      ensures Correct(ops, source, queries, old(packet.Abstract()), r)
        || (r.Err?
            && (Kernels.Interrupted(r.error, cancel, old(cancel.polls)) || (debug && !Kinded(old(packet.Abstract())))))
    {
      hide Accepted, Frozen, Correct, Total, Executed, Refused, Kernels.Interrupted, Kinded, ExecutedOne;
      hide ValidBatch, Encoded, EncodedOne, KindedPlan;
      ghost var view := packet.Abstract();
      FrozenShape(version, source, nodes, sorted);
      FrozenAnswers(ops, version, source, nodes, sorted, queries, view);
      FrozenKinded(version, source, nodes, sorted);
      if Returned(ops, version, queries, view).Err? {
        FailingCorrect(ops, source, queries, view, Returned(ops, version, queries, view));
      }
      if ValidBatch(source.dim, queries) && Kinded(view) {
        FrozenNotRefused(ops, version, source, nodes, sorted, queries, view);
      }
      ShapeMatters(ops, version, queries, view);
      if |queries| == 1 {
        assert queries == [queries[0]];
        OneIsBatchOfOne(ops, version.plan, version.stages, queries[0], view);
        EncodeOneAgrees(source.dim, queries[0], Loaded(Cleared(view), version.plan.statics));
        var one := ExecuteOneInline(ops, debug, version.plan, version.stages, queries[0], packet, cancel);
        r := if one.Ok? then Ok([one.value]) else Err(one.error);
      } else {
        r := ExecuteInline(ops, debug, version.plan, version.stages, queries, packet, cancel);
      }
    }
  }

  /** Correctness asks nothing of the kind of an error. */
  lemma FailingCorrect(ops: Ops, s: State, queries: seq<ChunkQuery>, view: View, r: Result<seq<seq<f32>>>)
    requires forall q :: 0 <= q < |queries| ==> queries[q].Valid()
    requires r.Err? && Correct(ops, s, queries, view, r)
    ensures forall e :: Correct(ops, s, queries, view, Err(e))
  {
    hide AllRun, AnswersBatch;
  }

  /** Queries of the wrong dimension cannot be encoded, with one query or many. */
  lemma ShapeMatters(ops: Ops, v: Version, queries: seq<ChunkQuery>, view: View)
    requires forall q :: 0 <= q < |queries| ==> queries[q].Valid()
    ensures Encoded(v.plan.meta.dimension, queries, Loaded(Cleared(view), v.plan.statics)).Ok?
      <==> ValidBatch(v.plan.meta.dimension, queries)
  {}

  /** Stack::create: a stack exists exactly for accepted specs, while a prepare permit is granted. */
  method Create(ops: Ops, debug: bool, dim: GraphDimension, finalField: string, specNodes: seq<NodeSpec>,
                permitted: bool)
    returns (r: Result<Stack>)
    requires StorableGraph(NodesOf(specNodes))
    ensures r.Ok? <==> permitted && Accepted(State(dim, finalField, NodesOf(specNodes)))
    ensures Accepted(State(dim, finalField, NodesOf(specNodes))) && !permitted ==> r == Err(ExecutorShutdown)
    ensures r.Ok? ==> fresh(r.value) && r.value.Valid() && r.value.version.id == 1
    ensures r.Ok? ==> r.value.state.Value() == r.value.source == State(dim, finalField, NodesOf(specNodes))
    ensures r.Ok? ==> LastNodesHold(specNodes, r.value.state.Value().nodes)
  {
    hide Accepted, Frozen, StorableGraph, LastNodesHold;
    var state := new FastNoiseState.FromSpec(dim, finalField, specNodes);
    var compiled, list, order := CompileState(state, 1, permitted);
    if compiled.Err? {
      return Err(compiled.error);
    }
    var stack := new Stack(ops, debug, state, compiled.value, list, order);
    r := Ok(stack);
  }
}
