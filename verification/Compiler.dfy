/** Compiling and running a graph: the decoded values are the final node's evaluation at every sample. */
module Compiler {
  import opened Common
  import opened Model
  import opened GraphState
  import opened Semantics
  import opened Pipeline
  import opened Packet
  import opened Grid
  import opened Runtime
  import opened Carry
  import opened Compile
  import opened Correctness
  import opened InitGrid
  import opened Backend
  import opened Inline

  // ---------------------------------------------------------------- from payloads back to kernels

  /** The kernels compile_graph meant, stage by stage. */
  ghost function StageKernels(dim: GraphDimension, nodes: seq<NodeSpec>, sorted: seq<nat>): (r: seq<seq<Kernel>>)
    requires Ordered(nodes, sorted) && AllKernels(nodes, sorted)
    ensures |r| == |sorted| + 1 && r[0] == [GridInit(dim)]
    ensures forall j :: 0 <= j < |sorted| ==> r[j + 1] == [KernelAt(nodes, sorted, j).value]
  {
    [[GridInit(dim)]] + seq(|sorted|, j requires 0 <= j < |sorted| => [KernelAt(nodes, sorted, j).value])
  }

  lemma {:induction false} PreparedPointwise(stages: seq<StageSpec>, ks: seq<seq<Kernel>>)
    requires |stages| == |ks| && forall s :: 0 <= s < |ks| ==> PrepareStage(stages[s].kernels) == Ok(ks[s])
    ensures Prepared(stages) == Ok(ks)
  {
    hide PrepareStage;
    if stages != [] {
      var n := |stages| - 1;
      PreparedPointwise(stages[..n], ks[..n]);
      assert ks == ks[..n] + [ks[n]];
    }
  }

  lemma OneKernelStage(spec: KernelSpec, k: Kernel)
    requires PrepareKernel(spec) == Ok(k)
    ensures PrepareStage([spec]) == Ok([k])
  {
    hide PrepareKernel;
    var kernels := [spec];
    assert kernels[..|kernels| - 1] == [];
    var none: seq<Kernel> := [];
    assert PrepareStage([]) == Ok(none);
    assert none + [k] == [k];
  }

  lemma KernelPrepares(k: Kernel)
    requires k.Shaped()
    ensures PrepareStage(KernelStage(k).kernels) == Ok([k])
  {
    hide Codec.ParseKernel, Codec.EncodePayload, PrepareStage;
    Codec.RoundTrip(k);
    OneKernelStage(KernelStage(k).kernels[0], k);
  }

  lemma InitPrepares(dim: GraphDimension)
    ensures PrepareStage(InitStage(dim).kernels) == Ok([GridInit(dim)])
  {
    hide PrepareStage;
    OneKernelStage(InitStage(dim).kernels[0], GridInit(dim));
  }

  /** Preparing a compiled plan recovers exactly the compiled kernels from their payload bytes. */
  lemma PrepareRecovers(dim: GraphDimension, nodes: seq<NodeSpec>, sorted: seq<nat>, finalSlot: u16)
    requires Ordered(nodes, sorted) && Storable(nodes) && AllKernels(nodes, sorted)
    ensures Prepared(PlanOf(dim, nodes, sorted, finalSlot).stages) == Ok(StageKernels(dim, nodes, sorted))
    ensures forall s :: 0 <= s < |StageKernels(dim, nodes, sorted)| ==> Shaped(StageKernels(dim, nodes, sorted)[s])
  {
    hide PrepareStage, Prepared, Shaped;
    var stages, ks := PlanOf(dim, nodes, sorted, finalSlot).stages, StageKernels(dim, nodes, sorted);
    forall s | 0 <= s < |ks| ensures PrepareStage(stages[s].kernels) == Ok(ks[s]) && Shaped(ks[s]) {
      StagePrepares(dim, nodes, sorted, finalSlot, s);
    }
    PreparedPointwise(stages, ks);
  }

  lemma StagePrepares(dim: GraphDimension, nodes: seq<NodeSpec>, sorted: seq<nat>, finalSlot: u16, s: nat)
    requires Ordered(nodes, sorted) && Storable(nodes) && AllKernels(nodes, sorted) && s <= |sorted|
    ensures var ks := StageKernels(dim, nodes, sorted)[s];
      PrepareStage(PlanOf(dim, nodes, sorted, finalSlot).stages[s].kernels) == Ok(ks) && Shaped(ks)
  {
    hide PrepareStage, KernelStage, InitStage, KernelAt;
    if s == 0 {
      InitPrepares(dim);
    } else {
      KernelShaped(nodes, sorted, s - 1);
      KernelPrepares(KernelAt(nodes, sorted, s - 1).value);
    }
  }

  // ---------------------------------------------------------------- running the stages

  lemma OneKernelRuns(ops: Ops, k: Kernel, view: View)
    ensures RunStage(ops, [k], view) == RunKernel(ops, k, view)
  {
    hide RunKernel;
    var kernels := [k];
    assert kernels[..|kernels| - 1] == [];
  }

  lemma NextStage(ops: Ops, stages: seq<seq<Kernel>>, view: View, n: nat, k: Kernel)
    requires n < |stages| && stages[n] == [k]
    ensures RunStages(ops, stages[..n + 1], view)
         == match RunStages(ops, stages[..n], view) case Err(e) => Err(e) case Ok(v) => RunKernel(ops, k, v)
  {
    hide RunKernel, RunStage;
    assert stages[..n + 1][..n] == stages[..n];
    if RunStages(ops, stages[..n], view).Ok? {
      OneKernelRuns(ops, k, RunStages(ops, stages[..n], view).value);
    }
  }

  ghost predicate FirstRun(ops: Ops, dim: GraphDimension, o: Occasion, nodes: seq<NodeSpec>, sorted: seq<nat>, n: nat)
    requires Ordered(nodes, sorted) && n <= |sorted|
  {
    forall j :: 0 <= j < n ==> Runs(ops, dim, o, nodes[sorted[j]])
  }

  /** What points and packet amount to for the nodes. */
  function OccasionOf(points: seq<seq<f32>>, view: View): Occasion {
    Occasion(points != [], HasThird(view))
  }

  /** After the init stage and n node stages: n nodes computed, exactly if they all run on the occasion. */
  lemma {:induction false} StagesRun(
    ops: Ops, g: Graph, dim: GraphDimension, nodes: seq<NodeSpec>, sorted: seq<nat>, queries: seq<ChunkQuery>,
    view: View, n: nat)
    requires Setting(g, nodes, sorted) && n <= |sorted| && ValidBatch(dim, queries) && Blank(view)
    ensures var r := RunStages(ops, StageKernels(dim, nodes, sorted)[..n + 1], Encoded(dim, queries, view).value);
      var points := LaidPoints(ops, dim, queries);
      && (r.Ok? <==> points.Some? && FirstRun(ops, dim, OccasionOf(points.value, view), nodes, sorted, n))
      && (r.Ok? ==> Progress(ops, g, dim, OccasionOf(points.value, view), nodes, sorted, points.value, r.value, n))
  {
    hide Progress, RunKernel, RunStages, StageKernels, Runs, Setting, KernelAt, LaidPoints, Encoded, AllKernels;
    hide OccasionOf;
    SettingKernels(g, nodes, sorted);
    var points := LaidPoints(ops, dim, queries);
    EncodedParts(dim, queries, view);
    var encoded := Encoded(dim, queries, view).value;
    if n == 0 {
      FirstStage(ops, dim, nodes, sorted, encoded);
      InitProgress(ops, g, dim, nodes, sorted, queries, view);
    } else {
      StagesRun(ops, g, dim, nodes, sorted, queries, view, n - 1);
      StageAfter(ops, dim, nodes, sorted, encoded, n - 1);
      var before := RunStages(ops, StageKernels(dim, nodes, sorted)[..n], encoded);
      if before.Ok? {
        NodeStage(ops, g, dim, OccasionOf(points.value, view), nodes, sorted, points.value, before.value, n - 1);
      }
    }
  }

  lemma FirstStage(ops: Ops, dim: GraphDimension, nodes: seq<NodeSpec>, sorted: seq<nat>, view: View)
    requires Ordered(nodes, sorted) && AllKernels(nodes, sorted)
    ensures RunStages(ops, StageKernels(dim, nodes, sorted)[..1], view) == RunKernel(ops, GridInit(dim), view)
  {
    hide RunKernel, KernelAt;
    var stages := StageKernels(dim, nodes, sorted);
    NextStage(ops, stages, view, 0, GridInit(dim));
    assert stages[..0] == [];
  }

  lemma StageAfter(ops: Ops, dim: GraphDimension, nodes: seq<NodeSpec>, sorted: seq<nat>, view: View, j: nat)
    requires Ordered(nodes, sorted) && AllKernels(nodes, sorted) && j < |sorted|
    ensures KernelAt(nodes, sorted, j).Some?
    ensures RunStages(ops, StageKernels(dim, nodes, sorted)[..j + 2], view)
         == match RunStages(ops, StageKernels(dim, nodes, sorted)[..j + 1], view)
            case Err(e) => Err(e)
            case Ok(v) => RunKernel(ops, KernelAt(nodes, sorted, j).value, v)
  {
    hide RunKernel, KernelAt, RunStages;
    NextStage(ops, StageKernels(dim, nodes, sorted), view, j + 1, KernelAt(nodes, sorted, j).value);
  }

  lemma SettingKernels(g: Graph, nodes: seq<NodeSpec>, sorted: seq<nat>)
    requires Setting(g, nodes, sorted)
    ensures Ordered(nodes, sorted) && AllKernels(nodes, sorted) && Storable(nodes)
  {}

  lemma InitProgress(
    ops: Ops, g: Graph, dim: GraphDimension, nodes: seq<NodeSpec>, sorted: seq<nat>, queries: seq<ChunkQuery>,
    view: View)
    requires Ordered(nodes, sorted) && ValidBatch(dim, queries) && Blank(view)
    ensures Encoded(dim, queries, view).Ok?
    ensures var r := RunKernel(ops, GridInit(dim), Encoded(dim, queries, view).value);
      var points := LaidPoints(ops, dim, queries);
      && (r.Ok? <==> points.Some?)
      && (r.Ok? ==> Progress(ops, g, dim, OccasionOf(points.value, view), nodes, sorted, points.value, r.value, 0))
  {
    hide GridInited, LaidPoints, Carries, HasTotal, Readable, HasThird;
    InitLays(ops, dim, queries, view);
  }

  lemma NodeStage(
    ops: Ops, g: Graph, dim: GraphDimension, o: Occasion, nodes: seq<NodeSpec>, sorted: seq<nat>, points: seq<seq<f32>>,
    view: View, j: nat)
    requires Setting(g, nodes, sorted) && j < |sorted| && Progress(ops, g, dim, o, nodes, sorted, points, view, j)
    ensures KernelAt(nodes, sorted, j).Some?
    ensures var r := RunKernel(ops, KernelAt(nodes, sorted, j).value, view);
      && (r.Ok? <==> Runs(ops, dim, o, nodes[sorted[j]]))
      && (r.Ok? ==> Progress(ops, g, dim, o, nodes, sorted, points, r.value, j + 1))
  {
    hide Progress, Pointwise, Runs, Setting, KernelAt;
    SettingNode(g, nodes, sorted, j);
    if Runs(ops, dim, o, nodes[sorted[j]]) {
      StepRuns(ops, g, dim, o, nodes, sorted, points, view, j);
    } else {
      StepFails(ops, g, dim, o, nodes, sorted, points, view, j);
    }
  }

  // ---------------------------------------------------------------- the answer

  /** piece is the field's value at each point, by recursive evaluation. */
  ghost predicate Answers(ops: Ops, g: Graph, id: string, points: seq<seq<f32>>, piece: seq<f32>) {
    |piece| == |points| && forall i :: 0 <= i < |points| ==> Eval(ops, g, id, points[i], |g|) == Some(Number(piece[i]))
  }

  /** One run of samples per query, each the field's value at the query's own points. */
  ghost predicate AnswersBatch(ops: Ops, g: Graph, id: string, queries: seq<ChunkQuery>, pieces: seq<seq<f32>>)
    requires forall q :: 0 <= q < |queries| ==> queries[q].Valid()
  {
    |pieces| == |queries| && forall k :: 0 <= k < |queries| ==>
      Answers(ops, g, id, QueryPoints(ops, queries[k]), pieces[k])
  }

  /** There is at most one answer. */
  lemma AnswersUnique(ops: Ops, g: Graph, id: string, queries: seq<ChunkQuery>, p1: seq<seq<f32>>, p2: seq<seq<f32>>)
    requires forall q :: 0 <= q < |queries| ==> queries[q].Valid()
    requires AnswersBatch(ops, g, id, queries, p1) && AnswersBatch(ops, g, id, queries, p2)
    ensures p1 == p2
  {
    hide Eval;
    forall k | 0 <= k < |p1| ensures p1[k] == p2[k] {
      var points := QueryPoints(ops, queries[k]);
      assert Answers(ops, g, id, points, p1[k]) && Answers(ops, g, id, points, p2[k]);
      forall i | 0 <= i < |points| ensures p1[k][i] == p2[k][i] {
        assert Eval(ops, g, id, points[i], |g|) == Some(Number(p1[k][i]));
      }
    }
  }

  lemma NodeCount(nodes: seq<NodeSpec>, g: Graph)
    requires Lists(nodes, g)
    ensures |g| == |nodes|
  {
    var ids := seq(|nodes|, i requires 0 <= i < |nodes| => nodes[i].id);
    assert NoDuplicates(ids);
    DistinctLength(ids);
    assert Elements(ids) == g.Keys by {
      forall id | id in g.Keys ensures id in Elements(ids) {
        var i :| 0 <= i < |nodes| && nodes[i].id == id;
        assert ids[i] == id;
      }
    }
  }

  /** A field's values at a list of points; 0 where it has none. */
  ghost function FieldColumn(ops: Ops, g: Graph, id: string, points: seq<seq<f32>>): (r: seq<f32>)
    ensures |r| == |points|
    ensures forall i :: 0 <= i < |points| ==> r[i] == FieldAt(ops, g, id, points[i])
  {
    seq<f32>(|points|, i requires 0 <= i < |points| => FieldAt(ops, g, id, points[i]))
  }

  ghost function FieldAt(ops: Ops, g: Graph, id: string, p: seq<f32>): f32 {
    match Eval(ops, g, id, p, |g|) case Some(Number(v)) => v case _ => 0
  }

  /**
   * The reference outcome of a batch: lay out its points, evaluate the field at each, cut at the stored
   * offsets. It depends on the planner state, the queries and the packet's third buffer only.
   */
  ghost function Outcome(ops: Ops, s: State, queries: seq<ChunkQuery>, view: View): Option<seq<seq<f32>>>
    requires forall q :: 0 <= q < |queries| ==> queries[q].Valid()
  {
    if !ValidBatch(s.dim, queries) then None
    else
      match LaidPoints(ops, s.dim, queries)
      case None => None
      case Some(points) =>
        if !AllRun(ops, s, OccasionOf(points, view)) then None
        else
          match Cut(FieldColumn(ops, s.nodes, s.finalField, points), OffsetsOf(queries), |queries|)
          case Err(_) => None
          case Ok(pieces) => Some(pieces)
  }

  /** The column of a batch below 2^32 samples, cut at the offsets, answers every query. */
  lemma ColumnAnswers(ops: Ops, g: Graph, dim: GraphDimension, id: string, queries: seq<ChunkQuery>)
    requires ValidBatch(dim, queries) && Total(queries) < U32_COUNT
    requires HasField(ops, g, id, BatchPoints(ops, dim, queries))
    ensures var column := FieldColumn(ops, g, id, BatchPoints(ops, dim, queries));
      && Cut(column, OffsetsOf(queries), |queries|).Ok?
      && AnswersBatch(ops, g, id, queries, Cut(column, OffsetsOf(queries), |queries|).value)
  {
    hide BatchPoints, OffsetsOf, Cut, Total, QueryPoints, Eval, Start;
    var points := BatchPoints(ops, dim, queries);
    var values := FieldColumn(ops, g, id, points);
    CutBatch(queries, values, |queries|);
    var pieces := Cut(values, OffsetsOf(queries), |queries|).value;
    forall k | 0 <= k < |queries| ensures Answers(ops, g, id, QueryPoints(ops, queries[k]), pieces[k]) {
      BatchPointsSplit(ops, dim, queries, k);
      assert IsRun(queries, values, k, pieces[k]);
      var at := Start(queries, k);
      forall i | 0 <= i < |pieces[k]|
        ensures Eval(ops, g, id, QueryPoints(ops, queries[k])[i], |g|) == Some(Number(pieces[k][i]))
      {
        assert QueryPoints(ops, queries[k])[i] == points[at + i] && pieces[k][i] == values[at + i];
      }
    }
  }

  /** The field has a number at every point. */
  ghost predicate HasField(ops: Ops, g: Graph, id: string, points: seq<seq<f32>>) {
    forall i :: 0 <= i < |points| ==>
      Eval(ops, g, id, points[i], |g|).Some? && Eval(ops, g, id, points[i], |g|).value.Number?
  }

  /** What the compiled run depends on: the order fits the graph, and the final field is a computed scalar. */
  ghost predicate Resolves(g: Graph, finalField: string, nodes: seq<NodeSpec>, sorted: seq<nat>) {
    && Setting(g, nodes, sorted)
    && HandleOf(nodes, finalField).Some?
    && SlotsFor(nodes, sorted, Scalar, HandleOf(nodes, finalField).value).Some?
  }

  ghost function FinalSlot(finalField: string, nodes: seq<NodeSpec>, sorted: seq<nat>): (s: u16)
    requires Ordered(nodes, sorted) && HandleOf(nodes, finalField).Some?
    requires SlotsFor(nodes, sorted, Scalar, HandleOf(nodes, finalField).value).Some?
  {
    SlotsFor(nodes, sorted, Scalar, HandleOf(nodes, finalField).value).value[0]
  }

  /** All nodes computed: the final slot holds the field's column. */
  lemma FinalColumn(
    ops: Ops, g: Graph, dim: GraphDimension, o: Occasion, finalField: string, nodes: seq<NodeSpec>, sorted: seq<nat>,
    points: seq<seq<f32>>, view: View)
    requires Resolves(g, finalField, nodes, sorted) && Progress(ops, g, dim, o, nodes, sorted, points, view, |sorted|)
    ensures HasField(ops, g, finalField, points)
    ensures var slot := FinalSlot(finalField, nodes, sorted);
      slot in view.data && view.data[slot] == F32(FieldColumn(ops, g, finalField, points))
  {
    hide Eval, SlotsAt, Runs, Carries, Row;
    var h := HandleOf(nodes, finalField).value;
    var r := Rank(sorted, h);
    assert NodeDone(ops, g, nodes, sorted, points, view, r);
    NodeCount(nodes, g);
    Pigeonhole(sorted, |nodes|);
    NodeRows(ops, g, nodes, sorted, points, view, r, |g|);
    ColumnOf(view, SlotsAt(nodes, sorted, r), EvalRows(ops, g, finalField, points, |g|));
    NumberColumn(ops, g, nodes[h], points, view.data[FinalSlot(finalField, nodes, sorted)].f32s);
  }

  lemma NumberColumn(ops: Ops, g: Graph, node: NodeSpec, points: seq<seq<f32>>, values: seq<f32>)
    requires OutputOf(node).Scalar? && Evaluates(ops, g, node, points, |g|) && |values| == |points|
    requires forall i :: 0 <= i < |points| ==> [values[i]] == Row(ops, g, node.id, points[i], |g|)
    ensures HasField(ops, g, node.id, points) && values == FieldColumn(ops, g, node.id, points)
  {
    hide Eval;
    forall i | 0 <= i < |points| ensures values[i] == FieldAt(ops, g, node.id, points[i]) {
      assert [values[i]] == Row(ops, g, node.id, points[i], |g|);
    }
  }

  lemma ColumnOf(view: View, slots: seq<u16>, rows: seq<seq<f32>>)
    requires |slots| == 1 && Carries(view, slots, rows) && Rows(rows, |rows|, 1)
    ensures slots[0] in view.data && view.data[slots[0]].F32? && |view.data[slots[0]].f32s| == |rows|
    ensures forall i :: 0 <= i < |rows| ==> [view.data[slots[0]].f32s[i]] == rows[i]
  {
    assert CarriesColumn(view, slots[0], rows, 0);
  }

  /** The decoded values, from a blank packet on. */
  ghost function Ran(ops: Ops, dim: GraphDimension, stages: seq<seq<Kernel>>, slot: u16, queries: seq<ChunkQuery>,
                     view: View)
    : Result<seq<seq<f32>>>
    requires ValidBatch(dim, queries)
  {
    var done :- RunStages(ops, stages, Encoded(dim, queries, view).value);
    Decoded(slot, done)
  }

  /**
   * One emitted order, from a blank packet: all nodes run exactly when the stages do, and decoding cuts the
   * field's column.
   */
  lemma RunAnswers(
    ops: Ops, g: Graph, dim: GraphDimension, finalField: string, nodes: seq<NodeSpec>, sorted: seq<nat>,
    queries: seq<ChunkQuery>, view: View)
    requires Resolves(g, finalField, nodes, sorted) && AllKernels(nodes, sorted)
    requires ValidBatch(dim, queries) && Blank(view)
    ensures OrderOutcome(ops, g, dim, finalField, nodes, sorted, queries, view,
                         Ran(ops, dim, StageKernels(dim, nodes, sorted), FinalSlot(finalField, nodes, sorted), queries,
                             view))
  {
    hide Progress, Setting, FirstRun, OccasionOf, KernelAt, LaidPoints, Encoded, RunStages, Cut, FinalSlot, OffsetsOf;
    hide FieldColumn;
    hide HasField;
    SettingOrder(g, nodes, sorted);
    var stages, points := StageKernels(dim, nodes, sorted), LaidPoints(ops, dim, queries);
    StagesRun(ops, g, dim, nodes, sorted, queries, view, |sorted|);
    assert stages[..|sorted| + 1] == stages;
    EncodedParts(dim, queries, view);
    var encoded := Encoded(dim, queries, view).value;
    var run := RunStages(ops, stages, encoded);
    if run.Ok? {
      var o := OccasionOf(points.value, view);
      FinalColumn(ops, g, dim, o, finalField, nodes, sorted, points.value, run.value);
      TotalKnown(ops, g, dim, o, nodes, sorted, points.value, run.value, |sorted|);
      RunFloatWrites(ops, stages, encoded);
      assert run.value.data[SLOT_QUERY_OFFSETS] == U32(OffsetsOf(queries));
    }
  }

  /** r is what the batch comes to when the nodes of this order are evaluated at the laid points. */
  ghost predicate OrderOutcome(
    ops: Ops, g: Graph, dim: GraphDimension, finalField: string, nodes: seq<NodeSpec>, sorted: seq<nat>,
    queries: seq<ChunkQuery>, view: View, r: Result<seq<seq<f32>>>)
    requires Ordered(nodes, sorted) && ValidBatch(dim, queries)
  {
    match LaidPoints(ops, dim, queries)
    case None => r.Err?
    case Some(points) =>
      if FirstRun(ops, dim, OccasionOf(points, view), nodes, sorted, |sorted|)
      then r == Cut(FieldColumn(ops, g, finalField, points), OffsetsOf(queries), |queries|)
        && HasField(ops, g, finalField, points)
      else r.Err?
  }

  /**
   * Compiler correctness for one emitted order, on every batch and packet: the staged program succeeds exactly
   * when the points can be laid out, all emitted nodes run on the occasion and the offsets can be cut, and then
   * it returns the final field's column, cut at the offsets.
   */
  lemma OrderCorrect(
    ops: Ops, g: Graph, dim: GraphDimension, finalField: string, nodes: seq<NodeSpec>, sorted: seq<nat>,
    queries: seq<ChunkQuery>, view: View)
    requires Resolves(g, finalField, nodes, sorted) && Storable(nodes) && AllKernels(nodes, sorted)
    requires ValidBatch(dim, queries)
    ensures var plan := PlanOf(dim, nodes, sorted, FinalSlot(finalField, nodes, sorted));
      && Prepared(plan.stages).Ok?
      && OrderOutcome(ops, g, dim, finalField, nodes, sorted, queries, view,
                      Executed(ops, plan, Prepared(plan.stages).value, queries, view))
  {
    hide Setting, FirstRun, KernelAt, LaidPoints, Encoded, RunStages, FinalSlot, Decoded, Cut, FieldColumn, HasField;
    hide OffsetsOf;
    hide StageKernels;
    SettingOrder(g, nodes, sorted);
    var slot := FinalSlot(finalField, nodes, sorted);
    var plan := PlanOf(dim, nodes, sorted, slot);
    PrepareRecovers(dim, nodes, sorted, slot);
    ClearedBlank(view);
    RunAnswers(ops, g, dim, finalField, nodes, sorted, queries, Cleared(view));
    assert Loaded(Cleared(view), plan.statics) == Cleared(view);
    assert HasThird(Cleared(view)) <==> HasThird(view);
    EncodedParts(dim, queries, Cleared(view));
  }

  lemma EncodedParts(dim: GraphDimension, queries: seq<ChunkQuery>, view: View)
    requires ValidBatch(dim, queries)
    ensures Encoded(dim, queries, view).Ok?
    ensures var now := Encoded(dim, queries, view).value.data;
      SLOT_QUERY_OFFSETS in now && now[SLOT_QUERY_OFFSETS] == U32(OffsetsOf(queries))
  {}

  // ---------------------------------------------------------------- batches that are too large

  function TotalLength(pieces: seq<seq<f32>>): nat {
    if pieces == [] then 0 else TotalLength(pieces[..|pieces| - 1]) + |pieces[|pieces| - 1]|
  }

  /** Pieces cut at consecutive offsets are together as long as the last offset says. */
  lemma {:induction false} CutLength(values: seq<f32>, offsets: seq<u32>, n: nat)
    requires n < |offsets| && Cut(values, offsets, n).Ok?
    ensures TotalLength(Cut(values, offsets, n).value) == if n == 0 then 0 else offsets[n]
  {
    if n > 0 {
      CutLength(values, offsets, n - 1);
      var before, now := Cut(values, offsets, n - 1).value, Cut(values, offsets, n).value;
      assert now[..|now| - 1] == before;
    }
  }

  /** Decoded results are together as long as the last stored offset says. */
  lemma DecodedLength(finalSlot: u16, view: View, offsets: seq<u32>)
    requires SLOT_QUERY_OFFSETS in view.data && view.data[SLOT_QUERY_OFFSETS].U32? ==>
      view.data[SLOT_QUERY_OFFSETS] == U32(offsets)
    requires |offsets| > 0 && Decoded(finalSlot, view).Ok?
    ensures TotalLength(Decoded(finalSlot, view).value) == if |offsets| == 1 then 0 else offsets[|offsets| - 1]
  {
    hide Cut;
    CutLength(view.data[finalSlot].f32s, offsets, |offsets| - 1);
  }

  lemma {:induction false} AnswerLength(ops: Ops, g: Graph, id: string, queries: seq<ChunkQuery>, pieces: seq<seq<f32>>)
    requires forall q :: 0 <= q < |queries| ==> queries[q].Valid()
    requires AnswersBatch(ops, g, id, queries, pieces)
    ensures TotalLength(pieces) == Total(queries)
    decreases |queries|
  {
    hide QueryPoints, Eval;
    if queries != [] {
      var n := |queries| - 1;
      assert Answers(ops, g, id, QueryPoints(ops, queries[n]), pieces[n]);
      assert AnswersBatch(ops, g, id, queries[..n], pieces[..n]) by {
        forall k | 0 <= k < n ensures Answers(ops, g, id, QueryPoints(ops, queries[..n][k]), pieces[..n][k]) {
          assert Answers(ops, g, id, QueryPoints(ops, queries[k]), pieces[k]);
        }
      }
      AnswerLength(ops, g, id, queries[..n], pieces[..n]);
    }
  }

  /** From 2^32 samples on no run of any plan answers the batch: its results are too short for the queries. */
  lemma OversizeUnanswered(
    ops: Ops, plan: Plan, stages: seq<seq<Kernel>>, queries: seq<ChunkQuery>, view: View, g: Graph, id: string)
    requires forall q :: 0 <= q < |queries| ==> queries[q].Valid()
    requires Total(queries) >= U32_COUNT && Executed(ops, plan, stages, queries, view).Ok?
    ensures !AnswersBatch(ops, g, id, queries, Executed(ops, plan, stages, queries, view).value)
  {
    hide RunStages, Encoded, Decoded, AnswersBatch, Total, OffsetsOf, Loaded, Cleared;
    var start := Loaded(Cleared(view), plan.statics);
    EncodedShape(plan.meta.dimension, queries, start);
    EncodedParts(plan.meta.dimension, queries, start);
    var encoded := Encoded(plan.meta.dimension, queries, start).value;
    RunFloatWrites(ops, stages, encoded);
    var done := RunStages(ops, stages, encoded).value;
    var offsets := OffsetsOf(queries);
    DecodedLength(plan.meta.finalSlot, done, offsets);
    var pieces := Executed(ops, plan, stages, queries, view).value;
    if AnswersBatch(ops, g, id, queries, pieces) {
      AnswerLength(ops, g, id, queries, pieces);
      assert false;
    }
  }

  lemma EncodedShape(dim: GraphDimension, queries: seq<ChunkQuery>, view: View)
    requires forall q :: 0 <= q < |queries| ==> queries[q].Valid()
    ensures Encoded(dim, queries, view).Ok? <==> ValidBatch(dim, queries)
  {}
}
