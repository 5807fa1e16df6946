/** What a node graph means: recursive evaluation of a node at one grid point. */
module Semantics {
  import opened Common
  import opened Model
  import opened GraphState

  /** Float arithmetic and noise, as parameters. clampPanics says when f32::clamp panics on its bounds. */
  datatype Ops = Ops(
    add: (f32, f32) -> f32,
    sub: (f32, f32) -> f32,
    mul: (f32, f32) -> f32,
    div: (f32, f32) -> f32,
    min: (f32, f32) -> f32,
    max: (f32, f32) -> f32,
    clamp: (f32, f32, f32) -> f32,
    clampPanics: (f32, f32) -> bool,
    negligible: f32 -> bool,
    ofIndex: nat -> f32,
    noise: (Noise, seq<f32>) -> f32,
    warp: (Noise, seq<f32>, nat) -> f32)

  const ZERO: f32 := 0
  const ONE: f32 := 0x3F80_0000

  datatype Value = Coords(coords: seq<f32>) | Number(number: f32) {
    function Components(): seq<f32> {
      match this case Coords(c) => c case Number(v) => [v]
    }
  }

  function ParamCount(op: CombineOp): nat {
    match op case Clamp => 2 case Remap => 4 case YGradient => 4 case _ => 0
  }

  /** Inputs an operator reads: the first two, or the first. */
  function InputCount(op: CombineOp): nat {
    if op.Binary() then 2 else 1
  }

  /** Operands of one sample; YGradient also takes the sample's y coordinate. */
  function OperandCount(op: CombineOp): nat {
    match op case YGradient => 2 case _ => InputCount(op)
  }

  /** Linear ramp of v from [lo, hi] onto [from, to], flat when the range is negligible. */
  function Ramp(ops: Ops, v: f32, lo: f32, hi: f32, from: f32, to: f32): f32 {
    var denom := ops.sub(hi, lo);
    var t := if ops.negligible(denom) then ZERO else ops.clamp(ops.div(ops.sub(v, lo), denom), ZERO, ONE);
    ops.add(from, ops.mul(ops.sub(to, from), t))
  }

  function Combined(ops: Ops, op: CombineOp, args: seq<f32>, params: seq<f32>): f32
    requires |args| == OperandCount(op) && |params| >= ParamCount(op)
  {
    match op
    case Add => ops.add(args[0], args[1])
    case Sub => ops.sub(args[0], args[1])
    case Mul => ops.mul(args[0], args[1])
    case Min => ops.min(args[0], args[1])
    case Max => ops.max(args[0], args[1])
    case Clamp => ops.clamp(args[0], params[0], params[1])
    case Remap => Ramp(ops, args[0], params[0], params[1], params[2], params[3])
    case YGradient => ops.add(args[0], Ramp(ops, args[1], params[0], params[1], params[2], params[3]))
  }

  /** The n coordinates a domain warp moves a position to. */
  function Warped(ops: Ops, noise: Noise, pos: seq<f32>, n: nat): (r: seq<f32>)
    ensures |r| == n && forall c :: 0 <= c < n ==> r[c] == ops.warp(noise, pos, c)
  {
    seq<f32>(n, c requires 0 <= c < n => ops.warp(noise, pos, c))
  }

  /** The value of node id at point p (its base coordinates), looking at most fuel nodes deep. */
  function Eval(ops: Ops, g: Graph, id: string, p: seq<f32>, fuel: nat): Option<Value>
    decreases fuel, 0
  {
    if fuel == 0 || id !in g then None
    else
      match g[id]
      case Warp(_, d, source, noise) =>
        (match EvalSource(ops, g, d, source, p, fuel - 1)
         case None => None
         case Some(pos) => Some(Coords(Warped(ops, noise, pos, d.Arity()))))
      case Sample(_, d, source, noise) =>
        (match EvalSource(ops, g, d, source, p, fuel - 1)
         case None => None
         case Some(pos) => Some(Number(ops.noise(noise, pos))))
      case Combine(_, inputs, op, params) =>
        if |inputs| < InputCount(op) || |params| < ParamCount(op) || |p| < 2 then None
        else
          match EvalInputs(ops, g, inputs, p, fuel - 1)
          case None => None
          case Some(vals) =>
            var args := if op.YGradient? then [vals[0], p[1]] else vals[..InputCount(op)];
            Some(Number(Combined(ops, op, args, params)))
  }

  /** The position a warp or sample reads: base coordinates, or another node's output of the same arity. */
  function EvalSource(ops: Ops, g: Graph, d: GraphDimension, source: PositionSource, p: seq<f32>,
                      fuel: nat): (r: Option<seq<f32>>)
    ensures r.Some? ==> |r.value| == d.Arity()
    decreases fuel, 1
  {
    match source
    case Base => if d.Arity() <= |p| then Some(p[..d.Arity()]) else None
    case Node(id) =>
      match Eval(ops, g, id, p, fuel)
      case Some(Coords(c)) => if |c| == d.Arity() then Some(c) else None
      case _ => None
  }

  function EvalInputs(ops: Ops, g: Graph, inputs: seq<string>, p: seq<f32>, fuel: nat): (r: Option<seq<f32>>)
    ensures r.Some? ==> |r.value| == |inputs|
    ensures r.Some? ==> forall i :: 0 <= i < |inputs| ==> Eval(ops, g, inputs[i], p, fuel) == Some(Number(r.value[i]))
    ensures (forall i :: 0 <= i < |inputs| ==>
      Eval(ops, g, inputs[i], p, fuel).Some? && Eval(ops, g, inputs[i], p, fuel).value.Number?) ==> r.Some?
    decreases fuel, 1, |inputs|
  {
    if inputs == [] then Some([])
    else
      match EvalInputs(ops, g, inputs[..|inputs| - 1], p, fuel)
      case None => None
      case Some(init) =>
        match Eval(ops, g, inputs[|inputs| - 1], p, fuel)
        case Some(Number(v)) => Some(init + [v])
        case _ => None
  }

  /** A value found at some depth is the value at every greater depth: evaluation is well defined. */
  lemma {:induction false} EvalMonotone(ops: Ops, g: Graph, id: string, p: seq<f32>, f1: nat, f2: nat)
    requires f1 <= f2 && Eval(ops, g, id, p, f1).Some?
    ensures Eval(ops, g, id, p, f2) == Eval(ops, g, id, p, f1)
    decreases f1, 0
  {
    hide Combined, Warped;
    match g[id]
    case Combine(_, inputs, _, _) =>
      InputsMonotone(ops, g, inputs, p, f1 - 1, f2 - 1);
    case _ =>
      if g[id].source.Node? {
        EvalMonotone(ops, g, g[id].source.id, p, f1 - 1, f2 - 1);
      }
  }

  lemma {:induction false} InputsMonotone(ops: Ops, g: Graph, inputs: seq<string>, p: seq<f32>, f1: nat, f2: nat)
    requires f1 <= f2 && EvalInputs(ops, g, inputs, p, f1).Some?
    ensures EvalInputs(ops, g, inputs, p, f2) == EvalInputs(ops, g, inputs, p, f1)
    decreases f1, 1, |inputs|
  {
    hide Eval;
    if inputs != [] {
      InputsMonotone(ops, g, inputs[..|inputs| - 1], p, f1, f2);
      EvalMonotone(ops, g, inputs[|inputs| - 1], p, f1, f2);
    }
  }

  // ---------------------------------------------------------------- graphs that compile and run

  ghost predicate IdWalk(g: Graph, w: seq<string>) {
    && |w| > 0
    && (forall i :: 0 <= i < |w| ==> w[i] in g)
    && (forall i :: 0 <= i < |w| - 1 ==> w[i + 1] in DependencyIds(g[w[i]]))
  }

  /** id lies on a cycle or depends on one. */
  ghost predicate Cyclic(g: Graph, id: string) {
    exists w: seq<string> :: IdWalk(g, w) && w[0] == id && !NoDuplicates(w)
  }

  ghost predicate Sortable(g: Graph, id: string) {
    id in g && !Cyclic(g, id)
  }

  ghost predicate Resolvable(g: Graph) {
    forall id, d :: id in g && d in DependencyIds(g[id]) ==> d in g
  }

  /** Positions feed warps and samples of their own dimension; scalars feed combines. */
  predicate KindsMatch(g: Graph, node: NodeSpec) {
    match node
    case Combine(_, inputs, _, _) => forall i :: 0 <= i < |inputs| ==> inputs[i] in g && OutputOf(g[inputs[i]]).Scalar?
    case _ => node.source.Node? ==> node.source.id in g && OutputOf(g[node.source.id]) == Position(node.dim)
  }

  /** When compile_graph returns a plan instead of panicking. */
  ghost predicate Compilable(s: State) {
    && Resolvable(s.nodes)
    && Sortable(s.nodes, s.finalField) && OutputOf(s.nodes[s.finalField]).Scalar?
    && forall id :: Sortable(s.nodes, id) ==> KindsMatch(s.nodes, s.nodes[id])
  }

  /** What a batch brings along: whether it has samples, and whether its packet holds a third coordinate buffer. */
  datatype Occasion = Occasion(sampled: bool, third: bool)

  /**
   * When a node's kernel runs: enough inputs and parameters, distinct operands, legal bounds if there is a
   * sample to clamp, and a position of the node's own dimension. Without samples a leftover third coordinate,
   * or another node that ran on one, will do in a 2D graph.
   */
  predicate Runs(ops: Ops, dim: GraphDimension, o: Occasion, node: NodeSpec) {
    match node
    case Combine(_, inputs, op, params) =>
      && |inputs| >= InputCount(op) && |params| >= ParamCount(op)
      && (op.Binary() ==> inputs[0] != inputs[1])
      && (op.Clamp? && o.sampled ==> !ops.clampPanics(params[0], params[1]))
    case _ => node.dim.Arity() <= dim.Arity() || (!o.sampled && (node.source.Node? || o.third))
  }

  ghost predicate AllRun(ops: Ops, s: State, o: Occasion) {
    forall id :: Sortable(s.nodes, id) ==> Runs(ops, s.dim, o, s.nodes[id])
  }

  /** When a node's kernel runs on every batch and packet. */
  predicate Runnable(ops: Ops, dim: GraphDimension, node: NodeSpec) {
    match node
    case Combine(_, inputs, op, params) =>
      && |inputs| >= InputCount(op) && |params| >= ParamCount(op)
      && (op.Binary() ==> inputs[0] != inputs[1])
      && (op.Clamp? ==> !ops.clampPanics(params[0], params[1]))
    case _ => node.dim.Arity() <= dim.Arity()
  }

  ghost predicate AllRunnable(ops: Ops, s: State) {
    forall id :: Sortable(s.nodes, id) ==> Runnable(ops, s.dim, s.nodes[id])
  }

  /** A batch with samples asks for exactly the runnable nodes, and they suffice on every occasion. */
  lemma SampledRuns(ops: Ops, s: State, o: Occasion)
    ensures AllRunnable(ops, s) ==> AllRun(ops, s, o)
    ensures o.sampled ==> (AllRun(ops, s, o) <==> AllRunnable(ops, s))
  {
    hide Sortable;
    forall id | Sortable(s.nodes, id)
      ensures id in s.nodes && (Runnable(ops, s.dim, s.nodes[id]) ==> Runs(ops, s.dim, o, s.nodes[id]))
      ensures o.sampled && Runs(ops, s.dim, o, s.nodes[id]) ==> Runnable(ops, s.dim, s.nodes[id])
    {
      SortableListed(s.nodes, id);
    }
  }

  /** The third buffer decides only for batches without samples, and only in favour. */
  lemma ThirdHelps(ops: Ops, s: State, sampled: bool)
    ensures AllRun(ops, s, Occasion(sampled, false)) ==> AllRun(ops, s, Occasion(sampled, true))
    ensures sampled ==> (AllRun(ops, s, Occasion(sampled, false)) <==> AllRun(ops, s, Occasion(sampled, true)))
  {
    SampledRuns(ops, s, Occasion(sampled, false));
    SampledRuns(ops, s, Occasion(sampled, true));
    hide Sortable;
    forall id | Sortable(s.nodes, id)
      ensures id in s.nodes
      ensures Runs(ops, s.dim, Occasion(sampled, false), s.nodes[id]) ==>
        Runs(ops, s.dim, Occasion(sampled, true), s.nodes[id])
    {
      SortableListed(s.nodes, id);
    }
  }

  lemma SortableListed(g: Graph, id: string)
    requires Sortable(g, id)
    ensures id in g
  {}
}
