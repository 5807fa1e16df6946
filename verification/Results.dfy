/** The main results about a planner state: what it compiles to, and what every run of it returns. */
module Results {
  import opened Common
  import opened Model
  import opened GraphState
  import opened Semantics
  import opened Pipeline
  import opened Packet
  import opened Grid
  import opened Runtime
  import opened Compile
  import opened Ssa
  import opened InitGrid
  import opened Backend
  import opened Inline
  import opened Compiler
  import opened Planner
  import TopoSort

  ghost predicate StorableGraph(g: Graph) {
    forall id :: id in g && g[id].Combine? ==> |g[id].inputs| < U32_COUNT && |g[id].params| < U32_COUNT
  }

  /** One compile of a state: some listing of its nodes and the order emitted for it. */
  ghost predicate CompileOf(s: State, nodes: seq<NodeSpec>, sorted: seq<nat>) {
    && Lists(nodes, s.nodes) && Ordered(nodes, sorted) && StorableGraph(s.nodes)
    && (AllResolve(nodes) && HandleOf(nodes, s.finalField).Some? ==> TopoSort.TopologicalOrder(Edges(nodes), sorted))
  }

  lemma CompileStorable(s: State, nodes: seq<NodeSpec>, sorted: seq<nat>)
    requires CompileOf(s, nodes, sorted)
    ensures Storable(nodes) && DistinctIds(nodes) && Ordered(nodes, sorted)
  {}

  ghost function PlanFor(s: State, nodes: seq<NodeSpec>, sorted: seq<nat>): Plan
    requires Ordered(nodes, sorted) && Storable(nodes) && Compiles(s.finalField, nodes, sorted)
  {
    PlanOf(s.dim, nodes, sorted, FinalSlot(s.finalField, nodes, sorted))
  }

  /** A state is accepted when it compiles and its plan validates. */
  ghost predicate Accepted(s: State) {
    Compilable(s) && |SlotNames(s.nodes)| <= DYNAMIC_SLOTS
  }

  /** Whether compile and validate succeed is decided by the map, the final field and nothing else. */
  lemma AcceptedExact(s: State, nodes: seq<NodeSpec>, sorted: seq<nat>)
    requires CompileOf(s, nodes, sorted)
    ensures Storable(nodes)
    ensures Accepted(s) <==> Compiles(s.finalField, nodes, sorted) && PlanValid(PlanFor(s, nodes, sorted))
  {
    hide Compiles, Compilable, PlanOf, SlotNames, AllKernels, Lists, AllResolve, TopoSort.TopologicalOrder;
    CompileStorable(s, nodes, sorted);
    CompilesExact(s, nodes, sorted);
    if Compiles(s.finalField, nodes, sorted) {
      CompiledParts(s, nodes, sorted);
      DemandExact(nodes, s.nodes, sorted);
      ValidatesIffFits(s.dim, nodes, sorted, FinalSlot(s.finalField, nodes, sorted));
    }
  }

  lemma CompiledParts(s: State, nodes: seq<NodeSpec>, sorted: seq<nat>)
    requires CompileOf(s, nodes, sorted) && Compiles(s.finalField, nodes, sorted)
    ensures Emitted(nodes, sorted) && AllKernels(nodes, sorted) && Storable(nodes)
    ensures HandleOf(nodes, s.finalField).Some?
    ensures SlotsFor(nodes, sorted, Scalar, HandleOf(nodes, s.finalField).value).Some?
  {
    hide AllKernels, TopoSort.TopologicalOrder, SlotsFor;
  }

  lemma AcceptedResolves(s: State, nodes: seq<NodeSpec>, sorted: seq<nat>)
    requires CompileOf(s, nodes, sorted) && Accepted(s)
    ensures Compiles(s.finalField, nodes, sorted) && Storable(nodes)
    ensures Resolves(s.nodes, s.finalField, nodes, sorted) && Emitted(nodes, sorted) && AllKernels(nodes, sorted)
  {
    hide Compiles, Compilable, SlotNames, AllKernels, AllResolve, TopoSort.TopologicalOrder, SlotsFor;
    CompileStorable(s, nodes, sorted);
    CompilesExact(s, nodes, sorted);
    CompiledParts(s, nodes, sorted);
    DemandExact(nodes, s.nodes, sorted);
  }

  /** What a compiled state answers on a batch, from whatever packet. */
  ghost function Answered(ops: Ops, s: State, nodes: seq<NodeSpec>, sorted: seq<nat>, queries: seq<ChunkQuery>,
                          view: View)
    : Result<seq<seq<f32>>>
    requires Ordered(nodes, sorted) && Storable(nodes) && Compiles(s.finalField, nodes, sorted)
    requires forall q :: 0 <= q < |queries| ==> queries[q].Valid()
  {
    var stages :- Prepared(PlanFor(s, nodes, sorted).stages);
    Executed(ops, PlanFor(s, nodes, sorted), stages, queries, view)
  }

  /** A query of the wrong dimension makes the whole batch fail. */
  lemma WrongShapeFails(ops: Ops, s: State, nodes: seq<NodeSpec>, sorted: seq<nat>, queries: seq<ChunkQuery>,
                        view: View)
    requires Ordered(nodes, sorted) && Storable(nodes) && Compiles(s.finalField, nodes, sorted)
    requires forall q :: 0 <= q < |queries| ==> queries[q].Valid()
    requires !ValidBatch(s.dim, queries)
    ensures Answered(ops, s, nodes, sorted, queries, view).Err?
  {
    hide Prepared, RunStages, Compiles, KernelStages, FinalSlot;
  }

  /**
   * Any compile of an accepted state, on any batch and any packet, succeeds exactly when the reference outcome
   * of the state exists, and then returns it. Handles, slots and order do not matter, and of the packet only
   * whether it holds a third coordinate buffer.
   */
  lemma OutcomeExact(ops: Ops, s: State, nodes: seq<NodeSpec>, sorted: seq<nat>, queries: seq<ChunkQuery>, view: View)
    requires CompileOf(s, nodes, sorted) && Accepted(s)
    requires forall q :: 0 <= q < |queries| ==> queries[q].Valid()
    ensures Storable(nodes) && Compiles(s.finalField, nodes, sorted)
    ensures var r, o := Answered(ops, s, nodes, sorted, queries, view), Outcome(ops, s, queries, view);
      && (r.Ok? <==> o.Some?)
      && (r.Ok? ==> r.value == o.value)
    ensures ValidBatch(s.dim, queries) ==> Valued(ops, s, LaidPoints(ops, s.dim, queries), view)
  {
    hide Accepted, Compiles, Resolves, Emitted, AllRun, FirstRun, Executed, PlanOf, Prepared, AllKernels, LaidPoints;
    hide Cut;
    hide FieldColumn, OffsetsOf, HasField, OccasionOf;
    CompileStorable(s, nodes, sorted);
    AcceptedResolves(s, nodes, sorted);
    assert Compiles(s.finalField, nodes, sorted);
    if ValidBatch(s.dim, queries) {
      OrderCorrect(ops, s.nodes, s.dim, s.finalField, nodes, sorted, queries, view);
      if LaidPoints(ops, s.dim, queries).Some? {
        RunsExact(ops, s, OccasionOf(LaidPoints(ops, s.dim, queries).value, view), nodes, sorted);
      }
    } else {
      WrongShapeFails(ops, s, nodes, sorted, queries, view);
    }
  }

  /** Where all nodes run, the field has a number at every laid point. */
  ghost predicate Valued(ops: Ops, s: State, points: Option<seq<seq<f32>>>, view: View) {
    points.Some? && AllRun(ops, s, OccasionOf(points.value, view)) ==>
      HasField(ops, s.nodes, s.finalField, points.value)
  }

  /** Below 2^32 samples the outcome exists exactly when all nodes run on the occasion. */
  lemma OutcomeRuns(ops: Ops, s: State, queries: seq<ChunkQuery>, view: View)
    requires ValidBatch(s.dim, queries) && Total(queries) < U32_COUNT
    requires Valued(ops, s, LaidPoints(ops, s.dim, queries), view)
    ensures Outcome(ops, s, queries, view).Some? <==> AllRun(ops, s, Occasion(Total(queries) > 0, HasThird(view)))
    ensures Outcome(ops, s, queries, view).Some? ==>
      AnswersBatch(ops, s.nodes, s.finalField, queries, Outcome(ops, s, queries, view).value)
  {
    hide AllRun, BatchPoints, LaidPoints, Total, HasField, AnswersBatch, Cut, FieldColumn, OffsetsOf, HasThird;
    LaidBatch(ops, s.dim, queries);
    if AllRun(ops, s, Occasion(Total(queries) > 0, HasThird(view))) {
      ColumnAnswers(ops, s.nodes, s.dim, s.finalField, queries);
    }
  }

  /**
   * Compiler correctness. An accepted state, compiled from any listing of its nodes and run on any packet: a
   * query of the wrong dimension makes the batch fail; below 2^32 samples the run succeeds exactly when every
   * compiled node runs on the occasion; and a successful run returns the final field's recursive evaluation at
   * every sample exactly below 2^32 samples.
   */
  lemma StateCorrect(ops: Ops, s: State, nodes: seq<NodeSpec>, sorted: seq<nat>, queries: seq<ChunkQuery>, view: View)
    requires CompileOf(s, nodes, sorted) && Accepted(s)
    requires forall q :: 0 <= q < |queries| ==> queries[q].Valid()
    ensures Storable(nodes) && Compiles(s.finalField, nodes, sorted)
    ensures Correct(ops, s, queries, view, Answered(ops, s, nodes, sorted, queries, view))
  {
    hide Accepted, CompileOf, Compiles, Answered, AllRun, AnswersBatch, Total, PlanFor, LaidPoints, Valued, Outcome;
    hide HasThird;
    OutcomeExact(ops, s, nodes, sorted, queries, view);
    CompileStorableBoth(s, nodes, sorted);
    if Answered(ops, s, nodes, sorted, queries, view).Ok? && Total(queries) >= U32_COUNT {
      TooLarge(ops, s, nodes, sorted, queries, view);
    }
    if !ValidBatch(s.dim, queries) {
      WrongShapeFails(ops, s, nodes, sorted, queries, view);
    } else if Total(queries) < U32_COUNT {
      OutcomeRuns(ops, s, queries, view);
    }
  }

  /** What a run of an accepted state owes its caller. */
  ghost predicate Correct(ops: Ops, s: State, queries: seq<ChunkQuery>, view: View, r: Result<seq<seq<f32>>>)
    requires forall q :: 0 <= q < |queries| ==> queries[q].Valid()
  {
    && (!ValidBatch(s.dim, queries) ==> r.Err?)
    && (ValidBatch(s.dim, queries) && Total(queries) < U32_COUNT ==>
         (r.Ok? <==> AllRun(ops, s, Occasion(Total(queries) > 0, HasThird(view)))))
    && (r.Ok? ==> (AnswersBatch(ops, s.nodes, s.finalField, queries, r.value) <==> Total(queries) < U32_COUNT))
  }

  lemma TooLarge(ops: Ops, s: State, nodes: seq<NodeSpec>, sorted: seq<nat>, queries: seq<ChunkQuery>, view: View)
    requires Ordered(nodes, sorted) && Storable(nodes) && Compiles(s.finalField, nodes, sorted)
    requires forall q :: 0 <= q < |queries| ==> queries[q].Valid()
    requires Answered(ops, s, nodes, sorted, queries, view).Ok? && Total(queries) >= U32_COUNT
    ensures !AnswersBatch(ops, s.nodes, s.finalField, queries, Answered(ops, s, nodes, sorted, queries, view).value)
  {
    hide Compiles, AnswersBatch, Total, PlanFor, Prepared, Executed;
    var plan := PlanFor(s, nodes, sorted);
    OversizeUnanswered(ops, plan, Prepared(plan.stages).value, queries, view, s.nodes, s.finalField);
  }

  /** History independence, first half: two compiles of one state value succeed together and validate together. */
  lemma SameAcceptance(s: State, nodes1: seq<NodeSpec>, sorted1: seq<nat>, nodes2: seq<NodeSpec>, sorted2: seq<nat>)
    requires CompileOf(s, nodes1, sorted1) && CompileOf(s, nodes2, sorted2)
    ensures Storable(nodes1) && Storable(nodes2)
    ensures Compiles(s.finalField, nodes1, sorted1) <==> Compiles(s.finalField, nodes2, sorted2)
    ensures Compiles(s.finalField, nodes1, sorted1) ==>
      (PlanValid(PlanFor(s, nodes1, sorted1)) <==> PlanValid(PlanFor(s, nodes2, sorted2)))
  {
    hide Accepted, CompileOf, Compiles, PlanFor, PlanValid;
    CompileStorableBoth(s, nodes1, sorted1);
    CompileStorableBoth(s, nodes2, sorted2);
    AcceptedExact(s, nodes1, sorted1);
    AcceptedExact(s, nodes2, sorted2);
  }

  /** The one case in which the packet decides: no points, and some node that runs only on a third buffer. */
  ghost predicate ThirdDecides(ops: Ops, s: State, queries: seq<ChunkQuery>) {
    && ValidBatch(s.dim, queries) && LaidPoints(ops, s.dim, queries) == Some([])
    && Cut([], OffsetsOf(queries), |queries|).Ok?
    && AllRun(ops, s, Occasion(false, true)) && !AllRun(ops, s, Occasion(false, false))
  }

  /**
   * History independence, second half, for all queries: two listings of one state value, run on any two packets,
   * return equal values when both succeed. They succeed together except exactly when the third buffer decides
   * and only one packet has it.
   */
  lemma SameAnswers(
    ops: Ops, s: State, nodes1: seq<NodeSpec>, sorted1: seq<nat>, nodes2: seq<NodeSpec>, sorted2: seq<nat>,
    queries: seq<ChunkQuery>, view1: View, view2: View)
    requires CompileOf(s, nodes1, sorted1) && CompileOf(s, nodes2, sorted2) && Accepted(s)
    requires forall q :: 0 <= q < |queries| ==> queries[q].Valid()
    ensures Storable(nodes1) && Compiles(s.finalField, nodes1, sorted1)
    ensures Storable(nodes2) && Compiles(s.finalField, nodes2, sorted2)
    ensures var r1 := Answered(ops, s, nodes1, sorted1, queries, view1);
      var r2 := Answered(ops, s, nodes2, sorted2, queries, view2);
      && (r1.Ok? && r2.Ok? ==> r1 == r2)
      && (r1.Ok? != r2.Ok? <==> HasThird(view1) != HasThird(view2) && ThirdDecides(ops, s, queries))
  {
    hide Accepted, CompileOf, Compiles, PlanFor, Answered, ThirdDecides, Outcome, LaidPoints, HasThird, Valued;
    CompileStorableBoth(s, nodes1, sorted1);
    CompileStorableBoth(s, nodes2, sorted2);
    OutcomeExact(ops, s, nodes1, sorted1, queries, view1);
    OutcomeExact(ops, s, nodes2, sorted2, queries, view2);
    OutcomesDiffer(ops, s, queries, view1, view2);
  }

  lemma OutcomesDiffer(ops: Ops, s: State, queries: seq<ChunkQuery>, view1: View, view2: View)
    requires forall q :: 0 <= q < |queries| ==> queries[q].Valid()
    ensures var o1, o2 := Outcome(ops, s, queries, view1), Outcome(ops, s, queries, view2);
      && (o1.Some? && o2.Some? ==> o1 == o2)
      && (o1.Some? != o2.Some? <==> HasThird(view1) != HasThird(view2) && ThirdDecides(ops, s, queries))
  {
    hide AllRun, LaidPoints, HasThird, Cut, OffsetsOf, FieldColumn;
    ThirdHelps(ops, s, true);
    ThirdHelps(ops, s, false);
  }

  lemma CompileStorableBoth(s: State, nodes: seq<NodeSpec>, sorted: seq<nat>)
    requires CompileOf(s, nodes, sorted)
    ensures Storable(nodes) && Ordered(nodes, sorted)
    ensures Compiles(s.finalField, nodes, sorted) <==> Compilable(s)
  {
    hide Compiles, Compilable, AllResolve, TopoSort.TopologicalOrder;
    CompileStorable(s, nodes, sorted);
    CompilesExact(s, nodes, sorted);
  }

  /** Batch homomorphism: a batch is answered query by query, each as the one-query path answers it alone. */
  lemma BatchIsMap(
    ops: Ops, s: State, nodes: seq<NodeSpec>, sorted: seq<nat>, queries: seq<ChunkQuery>, view: View, k: nat,
    other: View)
    requires CompileOf(s, nodes, sorted) && Accepted(s) && AllRunnable(ops, s)
    requires ValidBatch(s.dim, queries) && Total(queries) < U32_COUNT && k < |queries|
    ensures Storable(nodes) && Compiles(s.finalField, nodes, sorted)
    ensures var plan := PlanFor(s, nodes, sorted);
      && Prepared(plan.stages).Ok? && Answered(ops, s, nodes, sorted, queries, view).Ok?
      && |Answered(ops, s, nodes, sorted, queries, view).value| == |queries|
      && ExecutedOne(ops, plan, Prepared(plan.stages).value, queries[k], other)
           == Ok(Answered(ops, s, nodes, sorted, queries, view).value[k])
  {
    hide Accepted, CompileOf, Compiles, PlanFor, AllRunnable, AllRun, HasThird, Total, Answers, Executed, ExecutedOne;
    hide Prepared;
    SampledRuns(ops, s, Occasion(Total(queries) > 0, HasThird(view)));
    SampledRuns(ops, s, Occasion(Total([queries[k]]) > 0, HasThird(other)));
    StateCorrect(ops, s, nodes, sorted, queries, view);
    SingleTotal(queries, k);
    var one := [queries[k]];
    assert ValidBatch(s.dim, one);
    StateCorrect(ops, s, nodes, sorted, one, other);
    CompileStorableBoth(s, nodes, sorted);
    OneIsBatchOfOne(ops, PlanFor(s, nodes, sorted), Prepared(PlanFor(s, nodes, sorted).stages).value, queries[k],
                    other);
    var whole, single := Answered(ops, s, nodes, sorted, queries, view).value,
      Answered(ops, s, nodes, sorted, one, other).value;
    assert Answers(ops, s.nodes, s.finalField, QueryPoints(ops, one[0]), single[0]);
    OneAnswer(ops, s.nodes, s.finalField, QueryPoints(ops, queries[k]), whole[k], single[0]);
  }

  lemma OneAnswer(ops: Ops, g: Graph, id: string, points: seq<seq<f32>>, p1: seq<f32>, p2: seq<f32>)
    requires Answers(ops, g, id, points, p1) && Answers(ops, g, id, points, p2)
    ensures p1 == p2
  {
    hide Eval;
    forall i | 0 <= i < |points| ensures p1[i] == p2[i] {
      assert Eval(ops, g, id, points[i], |g|) == Some(Number(p1[i]));
    }
  }

  lemma SingleTotal(queries: seq<ChunkQuery>, k: nat)
    requires k < |queries|
    ensures Total([queries[k]]) == queries[k].Samples() <= Total(queries)
  {
    PrefixBelow(queries, k);
    assert [queries[k]][..0] == [];
  }
}
