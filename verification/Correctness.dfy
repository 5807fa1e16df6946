/** Compiler correctness: the staged buffer program computes what recursive evaluation of the graph says. */
module Correctness {
  import opened Common
  import opened Model
  import opened GraphState
  import opened Semantics
  import opened Packet
  import opened Runtime
  import opened Kernels
  import opened Carry
  import opened Compile
  import opened Ssa

  /** The components of node id at point p; none while it has no value. */
  ghost function Row(ops: Ops, g: Graph, id: string, p: seq<f32>, fuel: nat): seq<f32> {
    match Eval(ops, g, id, p, fuel) case None => [] case Some(v) => v.Components()
  }

  /** Row i: the components of node id at sample point i. */
  ghost function EvalRows(ops: Ops, g: Graph, id: string, points: seq<seq<f32>>, fuel: nat): (r: seq<seq<f32>>)
    ensures |r| == |points| && forall i :: 0 <= i < |points| ==> r[i] == Row(ops, g, id, points[i], fuel)
  {
    seq(|points|, i requires 0 <= i < |points| => Row(ops, g, id, points[i], fuel))
  }

  /** v is what a node of this kind evaluates to. */
  predicate Fits(node: NodeSpec, v: Value) {
    match OutputOf(node)
    case Position(d) => v.Coords? && |v.coords| == d.Arity()
    case Scalar => v.Number?
  }

  ghost predicate Evaluates(ops: Ops, g: Graph, node: NodeSpec, points: seq<seq<f32>>, fuel: nat) {
    forall i :: 0 <= i < |points| ==>
      Eval(ops, g, node.id, points[i], fuel).Some? && Fits(node, Eval(ops, g, node.id, points[i], fuel).value)
  }

  /** Node j has been computed: its slots carry its evaluation at every sample. */
  ghost predicate NodeDone(ops: Ops, g: Graph, nodes: seq<NodeSpec>, sorted: seq<nat>, points: seq<seq<f32>>,
                           view: View, j: nat)
    requires Ordered(nodes, sorted) && j < |sorted|
  {
    && Evaluates(ops, g, nodes[sorted[j]], points, j + 1)
    && Carries(view, SlotsAt(nodes, sorted, j), EvalRows(ops, g, nodes[sorted[j]].id, points, j + 1))
  }

  /** The packet after grid initialisation and the first j node stages. */
  ghost predicate Progress(
    ops: Ops, g: Graph, dim: GraphDimension, o: Occasion, nodes: seq<NodeSpec>, sorted: seq<nat>, points: seq<seq<f32>>,
    view: View, j: nat)
    requires Ordered(nodes, sorted) && j <= |sorted|
  {
    && HasTotal(view, |points|)
    && Rows(points, |points|, dim.Arity()) && Carries(view, BaseSlots(dim.Arity()), points)
    && (o.sampled <==> points != [])
    && (dim.D2? ==> !Readable(view, [SLOT_BASE_Z], 1) && (o.third <==> HasThird(view)))
    && forall i :: 0 <= i < j ==>
         Runs(ops, dim, o, nodes[sorted[i]]) && NodeDone(ops, g, nodes, sorted, points, view, i)
  }

  /** Everything known of one compiled graph. */
  ghost predicate Setting(g: Graph, nodes: seq<NodeSpec>, sorted: seq<nat>) {
    Compiled(nodes, sorted) && Lists(nodes, g) && Demand(nodes, sorted) <= DYNAMIC_SLOTS
  }

  lemma RowsAtDepth(ops: Ops, g: Graph, node: NodeSpec, points: seq<seq<f32>>, f1: nat, f2: nat)
    requires f1 <= f2 && Evaluates(ops, g, node, points, f1)
    ensures Evaluates(ops, g, node, points, f2)
    ensures EvalRows(ops, g, node.id, points, f2) == EvalRows(ops, g, node.id, points, f1)
  {
    hide Eval;
    forall i | 0 <= i < |points|
      ensures Eval(ops, g, node.id, points[i], f2) == Eval(ops, g, node.id, points[i], f1)
    {
      EvalMonotone(ops, g, node.id, points[i], f1, f2);
    }
  }

  /** What a kernel is about to read, and how it relates to the node's evaluation. */
  ghost predicate Supplied(
    ops: Ops, g: Graph, nodes: seq<NodeSpec>, sorted: seq<nat>, points: seq<seq<f32>>, view: View, j: nat,
    k: Kernel, args: seq<seq<f32>>)
    requires Ordered(nodes, sorted) && j < |sorted|
  {
    && !k.GridInit? && Ready(k) && Rows(args, |points|, |Ins(k)|) && Carries(view, Ins(k), args)
    && NoDuplicates(Ins(k)) && (forall s :: s in Ins(k) ==> s !in SlotsAt(nodes, sorted, j))
    && Outs(k) == SlotsAt(nodes, sorted, j) && (points != [] ==> !ClampPanics(ops, k))
    && Evaluates(ops, g, nodes[sorted[j]], points, j + 1)
    && forall i :: 0 <= i < |points| ==>
         EvalRows(ops, g, nodes[sorted[j]].id, points, j + 1)[i] == Outputs(ops, k, args[i])
  }

  lemma JoinDistinct(a: seq<u16>, b: seq<u16>)
    requires NoDuplicates(a) && NoDuplicates(b) && forall s :: s in a ==> s !in b
    ensures NoDuplicates(a + b)
  {
    forall i, j | 0 <= i < j < |a + b| ensures (a + b)[i] != (a + b)[j] {
      if i < |a| <= j {
        assert a[i] in a && b[j - |a|] in b;
      }
    }
  }

  /** A supplied kernel runs, and its node joins the computed ones. */
  lemma SuppliedRuns(
    ops: Ops, g: Graph, dim: GraphDimension, o: Occasion, nodes: seq<NodeSpec>, sorted: seq<nat>, points: seq<seq<f32>>,
    view: View,
    j: nat, k: Kernel, args: seq<seq<f32>>)
    requires Setting(g, nodes, sorted) && j < |sorted| && Progress(ops, g, dim, o, nodes, sorted, points, view, j)
    requires Runs(ops, dim, o, nodes[sorted[j]])
    requires Supplied(ops, g, nodes, sorted, points, view, j, k, args)
    ensures Pointwise(ops, k, view).Ok?
    ensures Progress(ops, g, dim, o, nodes, sorted, points, Pointwise(ops, k, view).value, j + 1)
  {
    hide Pointwise, Ins, Outs, Outputs, Evaluates, Carries, SlotsAt, Runs, ClampPanics, Ready, Progress, Setting;
    hide EvalRows;
    SettingOrder(g, nodes, sorted);
    OwnSlotsDistinct(nodes, sorted, j);
    TotalKnown(ops, g, dim, o, nodes, sorted, points, view, j);
    JoinDistinct(Ins(k), Outs(k));
    KernelRuns(ops, k, view, |points|, args);
    var now := Pointwise(ops, k, view).value;
    assert OutputRows(ops, k, args) == EvalRows(ops, g, nodes[sorted[j]].id, points, j + 1);
    ProgressFrame(ops, g, dim, o, nodes, sorted, points, view, now, j);
    ProgressJoin(ops, g, dim, o, nodes, sorted, points, now, j);
  }

  lemma SettingOrder(g: Graph, nodes: seq<NodeSpec>, sorted: seq<nat>)
    requires Setting(g, nodes, sorted)
    ensures Ordered(nodes, sorted) && Demand(nodes, sorted) <= DYNAMIC_SLOTS
  {}

  lemma TotalKnown(
    ops: Ops, g: Graph, dim: GraphDimension, o: Occasion, nodes: seq<NodeSpec>, sorted: seq<nat>, points: seq<seq<f32>>,
    view: View, j: nat)
    requires Ordered(nodes, sorted) && j <= |sorted| && Progress(ops, g, dim, o, nodes, sorted, points, view, j)
    ensures HasTotal(view, |points|) && (o.sampled <==> points != [])
    ensures dim.D2? ==> !Readable(view, [SLOT_BASE_Z], 1) && (o.third <==> HasThird(view))
  {}

  lemma ProgressJoin(
    ops: Ops, g: Graph, dim: GraphDimension, o: Occasion, nodes: seq<NodeSpec>, sorted: seq<nat>, points: seq<seq<f32>>,
    view: View, j: nat)
    requires Ordered(nodes, sorted) && j < |sorted| && Progress(ops, g, dim, o, nodes, sorted, points, view, j)
    requires Runs(ops, dim, o, nodes[sorted[j]]) && NodeDone(ops, g, nodes, sorted, points, view, j)
    ensures Progress(ops, g, dim, o, nodes, sorted, points, view, j + 1)
  {
    hide NodeDone, Runs;
  }

  lemma BaseFrame(points: seq<seq<f32>>, dim: GraphDimension, view: View, now: View, outs: seq<u16>)
    requires OnlyChanged(view, now, outs) && forall s :: s in outs ==> s >= 32
    requires HasTotal(view, |points|) && Carries(view, BaseSlots(dim.Arity()), points)
    ensures HasTotal(now, |points|) && Carries(now, BaseSlots(dim.Arity()), points)
    ensures !Readable(view, [SLOT_BASE_Z], 1) ==> !Readable(now, [SLOT_BASE_Z], 1)
    ensures HasThird(now) <==> HasThird(view)
  {
    CarriesFrame(view, now, outs, BaseSlots(dim.Arity()), points);
    assert SLOT_BASE_Z in [SLOT_BASE_Z] && SLOT_BASE_Z !in outs;
  }

  lemma ProgressFrame(
    ops: Ops, g: Graph, dim: GraphDimension, o: Occasion, nodes: seq<NodeSpec>, sorted: seq<nat>, points: seq<seq<f32>>,
    view: View, now: View, j: nat)
    requires Setting(g, nodes, sorted) && j < |sorted| && Progress(ops, g, dim, o, nodes, sorted, points, view, j)
    requires OnlyChanged(view, now, SlotsAt(nodes, sorted, j))
    ensures Progress(ops, g, dim, o, nodes, sorted, points, now, j)
  {
    hide Carries, Evaluates, SlotsAt, Runs, EvalRows, OnlyChanged, HasTotal, Readable, HasThird, Setting;
    SettingOrder(g, nodes, sorted);
    OwnSlotsDistinct(nodes, sorted, j);
    BaseFrame(points, dim, view, now, SlotsAt(nodes, sorted, j));
    forall i | 0 <= i < j ensures NodeDone(ops, g, nodes, sorted, points, now, i) {
      SlotsDisjoint(nodes, sorted, i, j);
      CarriesFrame(view, now, SlotsAt(nodes, sorted, j), SlotsAt(nodes, sorted, i),
                   EvalRows(ops, g, nodes[sorted[i]].id, points, i + 1));
    }
  }

  // ---------------------------------------------------------------- warps and samples

  /** The position rows a warp or sample of dimension d reads. */
  ghost predicate SourceRows(
    ops: Ops, g: Graph, d: GraphDimension, source: PositionSource, points: seq<seq<f32>>, fuel: nat,
    args: seq<seq<f32>>)
  {
    Rows(args, |points|, d.Arity()) &&
    forall i :: 0 <= i < |points| ==> EvalSource(ops, g, d, source, points[i], fuel) == Some(args[i])
  }

  lemma BaseRows(ops: Ops, g: Graph, dim: GraphDimension, d: GraphDimension, points: seq<seq<f32>>, view: View,
                 fuel: nat)
    returns (args: seq<seq<f32>>)
    requires d.Arity() <= dim.Arity() && Rows(points, |points|, dim.Arity())
      && Carries(view, BaseSlots(dim.Arity()), points)
    ensures SourceRows(ops, g, d, Base, points, fuel, args) && Carries(view, BaseSlots(d.Arity()), args)
  {
    args := seq(|points|, i requires 0 <= i < |points| => points[i][..d.Arity()]);
    forall a | 0 <= a < d.Arity() ensures CarriesColumn(view, BaseSlots(d.Arity())[a], args, a) {
      assert CarriesColumn(view, BaseSlots(dim.Arity())[a], points, a);
    }
  }

  /** Without samples, an empty third buffer completes the base coordinates of a 2D graph. */
  lemma EmptyThird(points: seq<seq<f32>>, view: View)
    requires points == [] && Carries(view, BaseSlots(2), points) && HasThird(view) && !Readable(view, [SLOT_BASE_Z], 1)
    ensures Carries(view, BaseSlots(3), points)
  {
    assert CarriesColumn(view, BaseSlots(2)[0], points, 0) && CarriesColumn(view, BaseSlots(2)[1], points, 1);
  }

  lemma NodeRows(
    ops: Ops, g: Graph, nodes: seq<NodeSpec>, sorted: seq<nat>, points: seq<seq<f32>>, view: View, r: nat, fuel: nat)
    requires Ordered(nodes, sorted) && r < |sorted| && r < fuel && NodeDone(ops, g, nodes, sorted, points, view, r)
    ensures Evaluates(ops, g, nodes[sorted[r]], points, fuel)
    ensures Carries(view, SlotsAt(nodes, sorted, r), EvalRows(ops, g, nodes[sorted[r]].id, points, fuel))
    ensures Rows(EvalRows(ops, g, nodes[sorted[r]].id, points, fuel), |points|, Width(nodes[sorted[r]]))
  {
    hide Eval, Carries;
    RowsAtDepth(ops, g, nodes[sorted[r]], points, r + 1, fuel);
  }

  /** Where an emitted warp or sample reads its position: distinct slots of its own dimension, not its outputs. */
  lemma SourceSupplied(
    ops: Ops, g: Graph, dim: GraphDimension, o: Occasion, nodes: seq<NodeSpec>, sorted: seq<nat>, points: seq<seq<f32>>,
    view: View, j: nat)
    returns (args: seq<seq<f32>>)
    requires Setting(g, nodes, sorted) && j < |sorted| && Progress(ops, g, dim, o, nodes, sorted, points, view, j)
    requires !nodes[sorted[j]].Combine? && Runs(ops, dim, o, nodes[sorted[j]])
    ensures SourceSlots(nodes, sorted, nodes[sorted[j]].dim, nodes[sorted[j]].source).Some?
    ensures var s := SourceSlots(nodes, sorted, nodes[sorted[j]].dim, nodes[sorted[j]].source).value;
      && |s| == nodes[sorted[j]].dim.Arity() && NoDuplicates(s) && Carries(view, s, args)
      && forall x :: x in s ==> x !in SlotsAt(nodes, sorted, j)
    ensures SourceRows(ops, g, nodes[sorted[j]].dim, nodes[sorted[j]].source, points, j, args)
  {
    hide Carries, SlotsAt, Eval, Evaluates, DependencyIds, Readable, HasTotal, NodeDone;
    var node := nodes[sorted[j]];
    assert KernelAt(nodes, sorted, j).Some?;
    OwnSlotsDistinct(nodes, sorted, j);
    match node.source
    case Base =>
      if node.dim.Arity() <= dim.Arity() {
        args := BaseRows(ops, g, dim, node.dim, points, view, j);
      } else {
        args := points;
        EmptyThird(points, view);
      }
    case Node(id) =>
      SourceNamed(node);
      NodeSource(nodes, sorted, j, node.dim, id);
      var r := Rank(sorted, HandleOf(nodes, id).value);
      OwnSlotsDistinct(nodes, sorted, r);
      SlotsDisjoint(nodes, sorted, r, j);
      NodeRows(ops, g, nodes, sorted, points, view, r, j);
      args := EvalRows(ops, g, id, points, j);
      FromNode(ops, g, nodes[sorted[r]], node.dim, points, j);
  }

  lemma FromNode(ops: Ops, g: Graph, source: NodeSpec, d: GraphDimension, points: seq<seq<f32>>, fuel: nat)
    requires Evaluates(ops, g, source, points, fuel) && OutputOf(source) == Position(d)
    ensures SourceRows(ops, g, d, Node(source.id), points, fuel, EvalRows(ops, g, source.id, points, fuel))
  {
    hide Eval;
  }

  lemma SettingNode(g: Graph, nodes: seq<NodeSpec>, sorted: seq<nat>, j: nat)
    requires Setting(g, nodes, sorted) && j < |sorted|
    ensures Ordered(nodes, sorted) && KernelAt(nodes, sorted, j).Some?
    ensures nodes[sorted[j]].id in g && g[nodes[sorted[j]].id] == nodes[sorted[j]]
    ensures !KernelAt(nodes, sorted, j).value.GridInit?
      && Outs(KernelAt(nodes, sorted, j).value) == SlotsAt(nodes, sorted, j)
  {
    WritesOwn(nodes, sorted, j);
  }

  lemma PositionNode(
    ops: Ops, g: Graph, dim: GraphDimension, o: Occasion, nodes: seq<NodeSpec>, sorted: seq<nat>, points: seq<seq<f32>>,
    view: View, j: nat)
    returns (args: seq<seq<f32>>)
    requires Setting(g, nodes, sorted) && j < |sorted| && Progress(ops, g, dim, o, nodes, sorted, points, view, j)
    requires !nodes[sorted[j]].Combine? && Runs(ops, dim, o, nodes[sorted[j]])
    ensures KernelAt(nodes, sorted, j).Some?
    ensures Supplied(ops, g, nodes, sorted, points, view, j, KernelAt(nodes, sorted, j).value, args)
  {
    hide Carries, Setting, Progress, SourceSlots, SlotsAt, EvalSource, Outs;
    args := SourceSupplied(ops, g, dim, o, nodes, sorted, points, view, j);
    SettingNode(g, nodes, sorted, j);
    var node, k := nodes[sorted[j]], KernelAt(nodes, sorted, j).value;
    forall i | 0 <= i < |points|
      ensures Eval(ops, g, node.id, points[i], j + 1).Some? && Fits(node, Eval(ops, g, node.id, points[i], j + 1).value)
      ensures Eval(ops, g, node.id, points[i], j + 1).value.Components() == Outputs(ops, k, args[i])
    {
      assert EvalSource(ops, g, node.dim, node.source, points[i], j) == Some(args[i]);
    }
  }

  // ---------------------------------------------------------------- combines

  /** Input c of a combine: a scalar computed earlier, in a slot of its own. */
  lemma InputSupplied(
    ops: Ops, g: Graph, dim: GraphDimension, o: Occasion, nodes: seq<NodeSpec>, sorted: seq<nat>, points: seq<seq<f32>>,
    view: View,
    j: nat, c: nat)
    requires Setting(g, nodes, sorted) && j < |sorted| && Progress(ops, g, dim, o, nodes, sorted, points, view, j)
    requires nodes[sorted[j]].Combine? && c < |nodes[sorted[j]].inputs|
    ensures InputSlots(nodes, sorted, nodes[sorted[j]].inputs).Some?
    ensures var id, slot := nodes[sorted[j]].inputs[c], InputSlots(nodes, sorted, nodes[sorted[j]].inputs).value[c];
      && CarriesColumn(view, slot, EvalRows(ops, g, id, points, j), 0)
      && slot >= 32 && slot !in SlotsAt(nodes, sorted, j)
      && forall i :: 0 <= i < |points| ==>
           Eval(ops, g, id, points[i], j).Some? && Eval(ops, g, id, points[i], j).value.Number?
  {
    hide Eval, SlotsAt, EvalRows, Runs;
    NodeInput(nodes, sorted, j, c);
    var id := nodes[sorted[j]].inputs[c];
    var r := Rank(sorted, HandleOf(nodes, id).value);
    assert NodeDone(ops, g, nodes, sorted, points, view, r);
    OwnSlotsDistinct(nodes, sorted, r);
    SlotsDisjoint(nodes, sorted, r, j);
    NodeRows(ops, g, nodes, sorted, points, view, r, j);
    assert CarriesColumn(view, SlotsAt(nodes, sorted, r)[0], EvalRows(ops, g, id, points, j), 0);
    assert SlotsAt(nodes, sorted, r)[0] in SlotsAt(nodes, sorted, r);
  }

  /** Different inputs sit in different slots. */
  lemma InputsApart(g: Graph, nodes: seq<NodeSpec>, sorted: seq<nat>, j: nat)
    requires Setting(g, nodes, sorted) && j < |sorted| && nodes[sorted[j]].Combine? && |nodes[sorted[j]].inputs| >= 2
    requires nodes[sorted[j]].inputs[0] != nodes[sorted[j]].inputs[1]
    ensures InputSlots(nodes, sorted, nodes[sorted[j]].inputs).Some?
    ensures var s := InputSlots(nodes, sorted, nodes[sorted[j]].inputs).value; s[0] != s[1]
  {
    hide SlotsAt;
    NodeInput(nodes, sorted, j, 0);
    NodeInput(nodes, sorted, j, 1);
    var r := Rank(sorted, HandleOf(nodes, nodes[sorted[j]].inputs[0]).value);
    var s := Rank(sorted, HandleOf(nodes, nodes[sorted[j]].inputs[1]).value);
    assert SlotsAt(nodes, sorted, r)[0] in SlotsAt(nodes, sorted, r);
    assert SlotsAt(nodes, sorted, s)[0] in SlotsAt(nodes, sorted, s);
    if r < s {
      SlotsDisjoint(nodes, sorted, r, s);
    } else {
      SlotsDisjoint(nodes, sorted, s, r);
    }
  }

  /** One sample's operands: the inputs' values, and y for a gradient. */
  ghost function Operands(ops: Ops, g: Graph, node: NodeSpec, p: seq<f32>, fuel: nat): (args: seq<f32>)
    requires node.Combine? && |node.inputs| >= InputCount(node.op) && |p| >= 2
    requires forall c :: 0 <= c < |node.inputs| ==>
      Eval(ops, g, node.inputs[c], p, fuel).Some? && Eval(ops, g, node.inputs[c], p, fuel).value.Number?
    ensures |args| == OperandCount(node.op)
    ensures forall c :: 0 <= c < InputCount(node.op) ==> [args[c]] == Row(ops, g, node.inputs[c], p, fuel)
    ensures node.op.YGradient? ==> args[1] == p[1]
  {
    var vals := EvalInputs(ops, g, node.inputs, p, fuel).value;
    if node.op.YGradient? then [vals[0], p[1]] else vals[..InputCount(node.op)]
  }

  lemma OperandsEvaluate(ops: Ops, g: Graph, node: NodeSpec, p: seq<f32>, fuel: nat)
    requires node.Combine? && |node.inputs| >= InputCount(node.op) && |p| >= 2 && |node.params| >= ParamCount(node.op)
    requires node.id in g && g[node.id] == node
    requires forall c :: 0 <= c < |node.inputs| ==>
      Eval(ops, g, node.inputs[c], p, fuel).Some? && Eval(ops, g, node.inputs[c], p, fuel).value.Number?
    ensures Eval(ops, g, node.id, p, fuel + 1)
         == Some(Number(Combined(ops, node.op, Operands(ops, g, node, p, fuel), node.params)))
  {
    hide Combined;
  }

  ghost predicate OperandsReady(ops: Ops, g: Graph, node: NodeSpec, points: seq<seq<f32>>, fuel: nat)
    requires node.Combine?
  {
    forall i, c :: 0 <= i < |points| && 0 <= c < |node.inputs| ==>
      Eval(ops, g, node.inputs[c], points[i], fuel).Some? && Eval(ops, g, node.inputs[c], points[i], fuel).value.Number?
  }

  ghost function OperandRows(ops: Ops, g: Graph, node: NodeSpec, points: seq<seq<f32>>,
                             fuel: nat): (args: seq<seq<f32>>)
    requires node.Combine? && |node.inputs| >= InputCount(node.op) && OperandsReady(ops, g, node, points, fuel)
    requires forall i :: 0 <= i < |points| ==> |points[i]| >= 2
    ensures |args| == |points| && forall i :: 0 <= i < |points| ==> args[i] == Operands(ops, g, node, points[i], fuel)
  {
    seq(|points|, i requires 0 <= i < |points| => Operands(ops, g, node, points[i], fuel))
  }

  lemma CombineNode(
    ops: Ops, g: Graph, dim: GraphDimension, o: Occasion, nodes: seq<NodeSpec>, sorted: seq<nat>, points: seq<seq<f32>>,
    view: View, j: nat)
    returns (args: seq<seq<f32>>)
    requires Setting(g, nodes, sorted) && j < |sorted| && Progress(ops, g, dim, o, nodes, sorted, points, view, j)
    requires nodes[sorted[j]].Combine? && Runs(ops, dim, o, nodes[sorted[j]])
    ensures KernelAt(nodes, sorted, j).Some?
    ensures Supplied(ops, g, nodes, sorted, points, view, j, KernelAt(nodes, sorted, j).value, args)
  {
    hide Setting, Progress, InputSlots, SlotsAt, Eval, Operands, Row, EvalRows, Outs, Combined, CarriesColumn;
    SettingNode(g, nodes, sorted, j);
    var node, k := nodes[sorted[j]], KernelAt(nodes, sorted, j).value;
    BaseCarried(ops, g, dim, o, nodes, sorted, points, view, j);
    TotalKnown(ops, g, dim, o, nodes, sorted, points, view, j);
    forall c | 0 <= c < |node.inputs|
      ensures CarriesColumn(view, k.inputs[c], EvalRows(ops, g, node.inputs[c], points, j), 0)
      ensures k.inputs[c] >= 32 && k.inputs[c] !in SlotsAt(nodes, sorted, j)
      ensures forall i :: 0 <= i < |points| ==>
        Eval(ops, g, node.inputs[c], points[i], j).Some? && Eval(ops, g, node.inputs[c], points[i], j).value.Number?
    {
      InputSupplied(ops, g, dim, o, nodes, sorted, points, view, j, c);
    }
    assert OperandsReady(ops, g, node, points, j);
    args := OperandRows(ops, g, node, points, j);
    if node.op.Binary() {
      InputsApart(g, nodes, sorted, j);
    }
    forall a | 0 <= a < |Ins(k)| ensures CarriesColumn(view, Ins(k)[a], args, a) {
      if a < InputCount(node.op) {
        InputColumn(ops, g, node, points, view, j, k.inputs[a], a);
      } else {
        GradientColumn(ops, g, node, points, view, j);
      }
    }
    assert NoDuplicates(Ins(k));
    assert SLOT_BASE_Y !in SlotsAt(nodes, sorted, j) by {
      SettingOrder(g, nodes, sorted);
      OwnSlotsDistinct(nodes, sorted, j);
    }
    forall a | 0 <= a < |Ins(k)| ensures Ins(k)[a] !in SlotsAt(nodes, sorted, j) {}
    forall i | 0 <= i < |points|
      ensures Eval(ops, g, node.id, points[i], j + 1).Some? && Fits(node, Eval(ops, g, node.id, points[i], j + 1).value)
      ensures Row(ops, g, node.id, points[i], j + 1) == Outputs(ops, k, args[i])
    {
      OperandsEvaluate(ops, g, node, points[i], j);
      OneOutput(ops, g, node, points[i], j, k);
    }
  }

  lemma OneOutput(ops: Ops, g: Graph, node: NodeSpec, p: seq<f32>, fuel: nat, k: Kernel)
    requires node.Combine? && |node.inputs| >= InputCount(node.op) && |p| >= 2 && |node.params| >= ParamCount(node.op)
    requires forall c :: 0 <= c < |node.inputs| ==>
      Eval(ops, g, node.inputs[c], p, fuel).Some? && Eval(ops, g, node.inputs[c], p, fuel).value.Number?
    requires k.CombineKernel? && k.op == node.op && k.params == node.params && |k.inputs| == |node.inputs|
    requires Eval(ops, g, node.id, p, fuel + 1)
          == Some(Number(Combined(ops, node.op, Operands(ops, g, node, p, fuel), node.params)))
    ensures Row(ops, g, node.id, p, fuel + 1) == Outputs(ops, k, Operands(ops, g, node, p, fuel))
  {
    hide Eval, Combined, Operands;
  }

  lemma BaseCarried(
    ops: Ops, g: Graph, dim: GraphDimension, o: Occasion, nodes: seq<NodeSpec>, sorted: seq<nat>, points: seq<seq<f32>>,
    view: View, j: nat)
    requires Ordered(nodes, sorted) && j <= |sorted| && Progress(ops, g, dim, o, nodes, sorted, points, view, j)
    ensures Rows(points, |points|, dim.Arity())
    ensures CarriesColumn(view, SLOT_BASE_Y, points, 1)
  {
    assert CarriesColumn(view, BaseSlots(dim.Arity())[1], points, 1);
  }

  lemma InputColumn(
    ops: Ops, g: Graph, node: NodeSpec, points: seq<seq<f32>>, view: View, fuel: nat, slot: u16, a: nat)
    requires node.Combine? && |node.inputs| >= InputCount(node.op) && OperandsReady(ops, g, node, points, fuel)
    requires forall i :: 0 <= i < |points| ==> |points[i]| >= 2
    requires a < InputCount(node.op) && CarriesColumn(view, slot, EvalRows(ops, g, node.inputs[a], points, fuel), 0)
    ensures CarriesColumn(view, slot, OperandRows(ops, g, node, points, fuel), a)
  {
    hide Eval, Operands, Row;
    var args := OperandRows(ops, g, node, points, fuel);
    forall i | 0 <= i < |points| ensures a < |args[i]| && view.data[slot].f32s[i] == args[i][a] {
      assert args[i] == Operands(ops, g, node, points[i], fuel);
    }
  }

  lemma GradientColumn(ops: Ops, g: Graph, node: NodeSpec, points: seq<seq<f32>>, view: View, fuel: nat)
    requires node.Combine? && |node.inputs| >= InputCount(node.op) && OperandsReady(ops, g, node, points, fuel)
    requires forall i :: 0 <= i < |points| ==> |points[i]| >= 2
    requires node.op.YGradient? && CarriesColumn(view, SLOT_BASE_Y, points, 1)
    ensures CarriesColumn(view, SLOT_BASE_Y, OperandRows(ops, g, node, points, fuel), 1)
  {
    hide Eval, Operands, Row;
  }

  // ---------------------------------------------------------------- one stage

  /** A stage whose node can run succeeds and completes the node. */
  lemma StepRuns(
    ops: Ops, g: Graph, dim: GraphDimension, o: Occasion, nodes: seq<NodeSpec>, sorted: seq<nat>, points: seq<seq<f32>>,
    view: View, j: nat)
    requires Setting(g, nodes, sorted) && j < |sorted| && Progress(ops, g, dim, o, nodes, sorted, points, view, j)
    requires Runs(ops, dim, o, nodes[sorted[j]])
    ensures KernelAt(nodes, sorted, j).Some? && !KernelAt(nodes, sorted, j).value.GridInit?
    ensures Pointwise(ops, KernelAt(nodes, sorted, j).value, view).Ok?
    ensures Progress(ops, g, dim, o, nodes, sorted, points,
                     Pointwise(ops, KernelAt(nodes, sorted, j).value, view).value, j + 1)
  {
    hide Setting, Progress, Pointwise, KernelAt, Ordered;
    SettingNode(g, nodes, sorted, j);
    var args: seq<seq<f32>>;
    if nodes[sorted[j]].Combine? {
      args := CombineNode(ops, g, dim, o, nodes, sorted, points, view, j);
    } else {
      args := PositionNode(ops, g, dim, o, nodes, sorted, points, view, j);
    }
    SuppliedRuns(ops, g, dim, o, nodes, sorted, points, view, j, KernelAt(nodes, sorted, j).value, args);
  }

  ghost predicate StageFails(ops: Ops, nodes: seq<NodeSpec>, sorted: seq<nat>, view: View, j: nat)
    requires Ordered(nodes, sorted) && j < |sorted|
  {
    match KernelAt(nodes, sorted, j)
    case None => false
    case Some(k) => !k.GridInit? && Pointwise(ops, k, view).Err?
  }

  /** The stage of a node that cannot run fails. */
  lemma StepFails(
    ops: Ops, g: Graph, dim: GraphDimension, o: Occasion, nodes: seq<NodeSpec>, sorted: seq<nat>, points: seq<seq<f32>>,
    view: View, j: nat)
    requires Setting(g, nodes, sorted) && j < |sorted| && Progress(ops, g, dim, o, nodes, sorted, points, view, j)
    requires !Runs(ops, dim, o, nodes[sorted[j]])
    ensures StageFails(ops, nodes, sorted, view, j)
  {
    hide Setting, Progress;
    SettingNode(g, nodes, sorted, j);
    if nodes[sorted[j]].Combine? {
      CombineFails(ops, g, dim, o, nodes, sorted, points, view, j);
    } else {
      ThirdAxisMissing(ops, g, dim, o, nodes, sorted, points, view, j);
    }
  }

  lemma CombineFails(
    ops: Ops, g: Graph, dim: GraphDimension, o: Occasion, nodes: seq<NodeSpec>, sorted: seq<nat>, points: seq<seq<f32>>,
    view: View, j: nat)
    requires Setting(g, nodes, sorted) && j < |sorted| && Progress(ops, g, dim, o, nodes, sorted, points, view, j)
    requires nodes[sorted[j]].Combine? && !Runs(ops, dim, o, nodes[sorted[j]])
    ensures StageFails(ops, nodes, sorted, view, j)
  {
    hide Setting, Progress, InputSlots, SlotsAt, Readable, EnsureAll, Columns;
    SettingNode(g, nodes, sorted, j);
    TotalKnown(ops, g, dim, o, nodes, sorted, points, view, j);
    var node, k := nodes[sorted[j]], KernelAt(nodes, sorted, j).value;
    if Ready(k) && node.op.Binary() {
      SameSlot(g, nodes, sorted, j);
      var slots := Ins(k) + Outs(k);
      assert slots[0] == slots[1];
    }
  }

  lemma SameSlot(g: Graph, nodes: seq<NodeSpec>, sorted: seq<nat>, j: nat)
    requires Setting(g, nodes, sorted) && j < |sorted| && nodes[sorted[j]].Combine? && |nodes[sorted[j]].inputs| >= 2
    requires nodes[sorted[j]].inputs[0] == nodes[sorted[j]].inputs[1]
    ensures InputSlots(nodes, sorted, nodes[sorted[j]].inputs).Some?
    ensures var s := InputSlots(nodes, sorted, nodes[sorted[j]].inputs).value; s[0] == s[1]
  {
    hide SlotsAt;
    NodeInput(nodes, sorted, j, 0);
    NodeInput(nodes, sorted, j, 1);
  }

  /** A 3D node in a 2D graph reads a base coordinate grid initialisation never fills. */
  lemma ThirdAxisMissing(
    ops: Ops, g: Graph, dim: GraphDimension, o: Occasion, nodes: seq<NodeSpec>, sorted: seq<nat>, points: seq<seq<f32>>,
    view: View, j: nat)
    requires Setting(g, nodes, sorted) && j < |sorted| && Progress(ops, g, dim, o, nodes, sorted, points, view, j)
    requires !nodes[sorted[j]].Combine? && !Runs(ops, dim, o, nodes[sorted[j]])
    ensures StageFails(ops, nodes, sorted, view, j)
  {
    hide SlotsAt, Pointwise, Progress, Setting, Readable, HasTotal, Outs;
    SettingNode(g, nodes, sorted, j);
    SettingOrder(g, nodes, sorted);
    TotalKnown(ops, g, dim, o, nodes, sorted, points, view, j);
    var node, k := nodes[sorted[j]], KernelAt(nodes, sorted, j).value;
    OwnSlotsDistinct(nodes, sorted, j);
    if node.source.Base? {
      if o.sampled {
        UnreadableThird(ops, k, view, |points|);
      } else {
        AbsentThird(ops, k, view, |points|);
      }
    } else {
      EarlierThird(ops, g, dim, o, nodes, sorted, points, view, j);
    }
  }

  lemma UnreadableThird(ops: Ops, k: Kernel, view: View, total: nat)
    requires k.WarpKernel? || k.SampleKernel?
    requires Ins(k) == BaseSlots(3) && SLOT_BASE_Z !in Outs(k) && HasTotal(view, total) && total > 0
    requires !Readable(view, [SLOT_BASE_Z], 1)
    ensures Pointwise(ops, k, view).Err?
  {
    hide EnsureAll, Columns, SliceError;
    EnsureAllAt(view, Outs(k), total);
    assert SLOT_BASE_Z in Ins(k) by { assert Ins(k)[2] == SLOT_BASE_Z; }
    var sized := EnsureAll(view, Outs(k), total);
    assert SLOT_BASE_Z in sized.data.Keys ==>
      SLOT_BASE_Z in view.data && sized.data[SLOT_BASE_Z] == view.data[SLOT_BASE_Z];
    assert !Readable(sized, Ins(k), total);
  }

  lemma AbsentThird(ops: Ops, k: Kernel, view: View, total: nat)
    requires k.WarpKernel? || k.SampleKernel?
    requires Ins(k) == BaseSlots(3) && SLOT_BASE_Z !in Outs(k) && HasTotal(view, total) && !HasThird(view)
    ensures Pointwise(ops, k, view).Err?
  {
    hide EnsureAll, Columns;
    EnsureAllAt(view, Outs(k), total);
    var sized, slots := EnsureAll(view, Outs(k), total), Ins(k) + Outs(k);
    assert slots[2] == SLOT_BASE_Z;
    assert SLOT_BASE_Z in sized.data.Keys ==>
      SLOT_BASE_Z in view.data && sized.data[SLOT_BASE_Z] == view.data[SLOT_BASE_Z];
    assert SliceError(sized, KindF32, slots, |slots|).Some?;
  }

  /** No 3D node precedes it either: the first one already failed. */
  lemma EarlierThird(
    ops: Ops, g: Graph, dim: GraphDimension, o: Occasion, nodes: seq<NodeSpec>, sorted: seq<nat>, points: seq<seq<f32>>,
    view: View, j: nat)
    requires Setting(g, nodes, sorted) && j < |sorted| && Progress(ops, g, dim, o, nodes, sorted, points, view, j)
    requires !nodes[sorted[j]].Combine? && nodes[sorted[j]].source.Node? && o.sampled
    ensures nodes[sorted[j]].dim.Arity() <= dim.Arity()
  {
    hide SlotsAt, NodeDone;
    var node := nodes[sorted[j]];
    assert KernelAt(nodes, sorted, j).Some?;
    SourceNamed(node);
    NodeSource(nodes, sorted, j, node.dim, node.source.id);
    var r := Rank(sorted, HandleOf(nodes, node.source.id).value);
    assert Runs(ops, dim, o, nodes[sorted[r]]);
  }
}
