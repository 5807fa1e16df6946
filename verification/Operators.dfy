/** What each operator computes, cell by cell in a packet and node by node in a graph, and the laws that follow. */
module Operators {
  import opened Common
  import opened Model
  import opened GraphState
  import opened Semantics
  import opened Packet
  import opened Runtime
  import opened Kernels
  import opened Carry

  // ---------------------------------------------------------------- cells

  predicate HasCell(view: View, slot: u16, i: nat) {
    slot in view.data && view.data[slot].F32? && i < |view.data[slot].f32s|
  }

  function Cell(view: View, slot: u16, i: nat): f32
    requires HasCell(view, slot, i)
  {
    view.data[slot].f32s[i]
  }

  /** Sample i of the buffers a kernel reads, in the order it reads them. */
  ghost predicate Reads(view: View, slots: seq<u16>, i: nat, args: seq<f32>) {
    |args| == |slots|
    && forall a :: 0 <= a < |slots| ==> HasCell(view, slots[a], i) && args[a] == Cell(view, slots[a], i)
  }

  /** A run that succeeds computes every output cell from the input cells of the same sample. */
  lemma KernelCell(ops: Ops, k: Kernel, view: View, total: nat, i: nat, c: nat) returns (args: seq<f32>)
    requires !k.GridInit? && Pointwise(ops, k, view).Ok? && HasTotal(view, total) && i < total && c < |Outs(k)|
    ensures Ready(k) && Reads(view, Ins(k), i, args) && (total > 0 ==> !ClampPanics(ops, k))
    ensures var now := Pointwise(ops, k, view).value;
      HasCell(now, Outs(k)[c], i) && Cell(now, Outs(k)[c], i) == SampleOut(ops, k, args, c)
  {
    hide Ins, Outs, EnsureAll, SampleOut, ClampPanics, WithColumns, Columns;
    var sized := EnsureAll(view, Outs(k), total);
    EnsureAllAt(view, Outs(k), total);
    EnsureOnlyChanges(view, Outs(k), total);
    Disjoint(Ins(k), Outs(k));
    var cols := Columns(ops, k, sized, total);
    WithColumnsAt(sized, Outs(k), cols);
    args := Args(sized, Ins(k), i);
    forall a | 0 <= a < |Ins(k)| ensures HasCell(view, Ins(k)[a], i) && args[a] == Cell(view, Ins(k)[a], i) {
      assert Ins(k)[a] in Ins(k) && Ins(k)[a] !in Outs(k);
    }
    assert cols[c] == Column(ops, k, sized, total, c);
  }

  lemma BinaryCell(
    ops: Ops, op: CombineOp, inputs: seq<u16>, out: u16, params: seq<f32>, view: View, total: nat, i: nat)
    requires op.Add? || op.Sub? || op.Mul? || op.Min? || op.Max?
    requires Pointwise(ops, CombineKernel(op, inputs, out, params), view).Ok? && HasTotal(view, total) && i < total
    ensures |inputs| >= 2 && HasCell(view, inputs[0], i) && HasCell(view, inputs[1], i)
    ensures var now := Pointwise(ops, CombineKernel(op, inputs, out, params), view).value;
      && HasCell(now, out, i)
      && var l, r, v := Cell(view, inputs[0], i), Cell(view, inputs[1], i), Cell(now, out, i);
      && (op.Add? ==> v == ops.add(l, r)) && (op.Sub? ==> v == ops.sub(l, r)) && (op.Mul? ==> v == ops.mul(l, r))
      && (op.Min? ==> v == ops.min(l, r)) && (op.Max? ==> v == ops.max(l, r))
  {
    hide Pointwise;
    var args := KernelCell(ops, CombineKernel(op, inputs, out, params), view, total, i, 0);
    assert inputs[..2][0] == inputs[0] && inputs[..2][1] == inputs[1];
  }

  /** Clamp takes its first parameter as lower and its second as upper bound. */
  lemma ClampCell(ops: Ops, inputs: seq<u16>, out: u16, params: seq<f32>, view: View, total: nat, i: nat)
    requires Pointwise(ops, CombineKernel(Clamp, inputs, out, params), view).Ok? && HasTotal(view, total) && i < total
    ensures |inputs| >= 1 && |params| >= 2 && HasCell(view, inputs[0], i) && !ops.clampPanics(params[0], params[1])
    ensures var now := Pointwise(ops, CombineKernel(Clamp, inputs, out, params), view).value;
      HasCell(now, out, i) && Cell(now, out, i) == ops.clamp(Cell(view, inputs[0], i), params[0], params[1])
  {
    hide Pointwise;
    var args := KernelCell(ops, CombineKernel(Clamp, inputs, out, params), view, total, i, 0);
    assert inputs[..1][0] == inputs[0];
  }

  /** r lies where v lies between lo and hi, clamped, on the way from one target to the other. */
  ghost predicate OnRamp(ops: Ops, v: f32, lo: f32, hi: f32, from: f32, to: f32, r: f32) {
    exists t: f32 {:trigger ops.mul(ops.sub(to, from), t)} ::
      && r == ops.add(from, ops.mul(ops.sub(to, from), t))
      && (ops.negligible(ops.sub(hi, lo)) ==> t == 0)
      && (!ops.negligible(ops.sub(hi, lo)) ==> t == ops.clamp(ops.div(ops.sub(v, lo), ops.sub(hi, lo)), 0, 0x3F80_0000))
  }

  lemma RampOn(ops: Ops, v: f32, lo: f32, hi: f32, from: f32, to: f32)
    ensures OnRamp(ops, v, lo, hi, from, to, Ramp(ops, v, lo, hi, from, to))
  {
    var denom := ops.sub(hi, lo);
    var t := if ops.negligible(denom) then ZERO else ops.clamp(ops.div(ops.sub(v, lo), denom), ZERO, ONE);
    assert Ramp(ops, v, lo, hi, from, to) == ops.add(from, ops.mul(ops.sub(to, from), t));
  }

  /** Remap: source range first, target range second. */
  lemma RemapCell(ops: Ops, inputs: seq<u16>, out: u16, params: seq<f32>, view: View, total: nat, i: nat)
    requires Pointwise(ops, CombineKernel(Remap, inputs, out, params), view).Ok? && HasTotal(view, total) && i < total
    ensures |inputs| >= 1 && |params| >= 4 && HasCell(view, inputs[0], i)
    ensures var now := Pointwise(ops, CombineKernel(Remap, inputs, out, params), view).value;
      HasCell(now, out, i)
      && OnRamp(ops, Cell(view, inputs[0], i), params[0], params[1], params[2], params[3], Cell(now, out, i))
  {
    hide Pointwise, OnRamp, Ramp;
    var args := KernelCell(ops, CombineKernel(Remap, inputs, out, params), view, total, i, 0);
    assert inputs[..1][0] == inputs[0];
    RampOn(ops, args[0], params[0], params[1], params[2], params[3]);
  }

  /** YGradient adds a ramp over the sample's y coordinate, buffer 11, to its input. */
  lemma GradientCell(ops: Ops, inputs: seq<u16>, out: u16, params: seq<f32>, view: View, total: nat, i: nat)
    returns (ramp: f32)
    requires Pointwise(ops, CombineKernel(YGradient, inputs, out, params), view).Ok?
    requires HasTotal(view, total) && i < total
    ensures |inputs| >= 1 && |params| >= 4 && HasCell(view, inputs[0], i) && HasCell(view, 11, i)
    ensures var now := Pointwise(ops, CombineKernel(YGradient, inputs, out, params), view).value;
      HasCell(now, out, i) && Cell(now, out, i) == ops.add(Cell(view, inputs[0], i), ramp)
    ensures OnRamp(ops, Cell(view, 11, i), params[0], params[1], params[2], params[3], ramp)
  {
    hide Pointwise, OnRamp, Ramp;
    var args := KernelCell(ops, CombineKernel(YGradient, inputs, out, params), view, total, i, 0);
    ramp := Ramp(ops, args[1], params[0], params[1], params[2], params[3]);
    RampOn(ops, args[1], params[0], params[1], params[2], params[3]);
  }

  /** A sample kernel evaluates the noise at the source position, axis by axis. */
  lemma SampleCell(ops: Ops, source: seq<u16>, out: u16, noise: Noise, view: View, total: nat, i: nat)
    requires 2 <= |source| <= 3
    requires Pointwise(ops, SampleKernel(source, out, noise), view).Ok? && HasTotal(view, total) && i < total
    ensures forall a :: 0 <= a < |source| ==> HasCell(view, source[a], i)
    ensures var now := Pointwise(ops, SampleKernel(source, out, noise), view).value;
      HasCell(now, out, i) && Cell(now, out, i) ==
        if |source| == 2 then ops.noise(noise, [Cell(view, source[0], i), Cell(view, source[1], i)])
        else ops.noise(noise, [Cell(view, source[0], i), Cell(view, source[1], i), Cell(view, source[2], i)])
  {
    hide Pointwise;
    var args := KernelCell(ops, SampleKernel(source, out, noise), view, total, i, 0);
    assert args == if |source| == 2 then [args[0], args[1]] else [args[0], args[1], args[2]];
  }

  /** A warp kernel writes warped coordinate c of the source position to its c-th output. */
  lemma WarpCell(ops: Ops, source: seq<u16>, output: seq<u16>, noise: Noise, view: View, total: nat, i: nat, c: nat)
    requires 2 <= |source| <= 3 && |output| == |source| && c < |output|
    requires Pointwise(ops, WarpKernel(source, output, noise), view).Ok? && HasTotal(view, total) && i < total
    ensures forall a :: 0 <= a < |source| ==> HasCell(view, source[a], i)
    ensures var now := Pointwise(ops, WarpKernel(source, output, noise), view).value;
      HasCell(now, output[c], i) && Cell(now, output[c], i) ==
        if |source| == 2 then ops.warp(noise, [Cell(view, source[0], i), Cell(view, source[1], i)], c)
        else ops.warp(noise, [Cell(view, source[0], i), Cell(view, source[1], i), Cell(view, source[2], i)], c)
  {
    hide Pointwise;
    var args := KernelCell(ops, WarpKernel(source, output, noise), view, total, i, c);
    assert args == if |source| == 2 then [args[0], args[1]] else [args[0], args[1], args[2]];
  }

  /** What each operator asks for before it runs. */
  lemma OperatorRuns(
    ops: Ops, dim: GraphDimension, o: Occasion, id: string, inputs: seq<string>, op: CombineOp, params: seq<f32>)
    ensures Runs(ops, dim, o, Combine(id, inputs, op, params)) <==>
      match op
      case Clamp => |inputs| >= 1 && |params| >= 2 && (o.sampled ==> !ops.clampPanics(params[0], params[1]))
      case Remap => |inputs| >= 1 && |params| >= 4
      case YGradient => |inputs| >= 1 && |params| >= 4
      case _ => |inputs| >= 2 && inputs[0] != inputs[1]
  {}

  // ---------------------------------------------------------------- nodes

  /** The node evaluates to this number, looking at most fuel nodes deep. */
  ghost predicate Yields(ops: Ops, g: Graph, id: string, p: seq<f32>, fuel: nat, v: f32) {
    Eval(ops, g, id, p, fuel) == Some(Number(v))
  }

  /** The inputs of a combine evaluate to these numbers. */
  ghost predicate InputsYield(ops: Ops, g: Graph, inputs: seq<string>, p: seq<f32>, fuel: nat, vals: seq<f32>) {
    |vals| == |inputs| && forall i :: 0 <= i < |inputs| ==> Yields(ops, g, inputs[i], p, fuel, vals[i])
  }

  lemma InputsFound(ops: Ops, g: Graph, inputs: seq<string>, p: seq<f32>, fuel: nat, vals: seq<f32>)
    requires InputsYield(ops, g, inputs, p, fuel, vals)
    ensures EvalInputs(ops, g, inputs, p, fuel) == Some(vals)
  {
    hide Eval;
    assert EvalInputs(ops, g, inputs, p, fuel).Some?;
    var found := EvalInputs(ops, g, inputs, p, fuel).value;
    forall i | 0 <= i < |inputs| ensures found[i] == vals[i] {
      assert Yields(ops, g, inputs[i], p, fuel, vals[i]);
    }
    assert found == vals;
  }

  lemma BinaryNode(ops: Ops, g: Graph, id: string, p: seq<f32>, fuel: nat, vals: seq<f32>)
    requires id in g && g[id].Combine? && |g[id].inputs| >= 2 && |p| >= 2
    requires InputsYield(ops, g, g[id].inputs, p, fuel, vals)
    ensures g[id].op.Add? ==> Yields(ops, g, id, p, fuel + 1, ops.add(vals[0], vals[1]))
    ensures g[id].op.Sub? ==> Yields(ops, g, id, p, fuel + 1, ops.sub(vals[0], vals[1]))
    ensures g[id].op.Mul? ==> Yields(ops, g, id, p, fuel + 1, ops.mul(vals[0], vals[1]))
    ensures g[id].op.Min? ==> Yields(ops, g, id, p, fuel + 1, ops.min(vals[0], vals[1]))
    ensures g[id].op.Max? ==> Yields(ops, g, id, p, fuel + 1, ops.max(vals[0], vals[1]))
  {
    hide EvalInputs;
    InputsFound(ops, g, g[id].inputs, p, fuel, vals);
  }

  lemma UnaryNode(ops: Ops, g: Graph, id: string, p: seq<f32>, fuel: nat, vals: seq<f32>) returns (r: f32, ramp: f32)
    requires id in g && g[id].Combine? && |g[id].inputs| >= 1 && |p| >= 2
    requires InputsYield(ops, g, g[id].inputs, p, fuel, vals)
    requires if g[id].op.Clamp? then |g[id].params| >= 2
      else (g[id].op.Remap? || g[id].op.YGradient?) && |g[id].params| >= 4
    ensures Yields(ops, g, id, p, fuel + 1, r)
    ensures g[id].op.Clamp? ==> r == ops.clamp(vals[0], g[id].params[0], g[id].params[1])
    ensures g[id].op.Remap? ==>
      OnRamp(ops, vals[0], g[id].params[0], g[id].params[1], g[id].params[2], g[id].params[3], r)
    ensures g[id].op.YGradient? ==> r == ops.add(vals[0], ramp)
    ensures g[id].op.YGradient? ==>
      OnRamp(ops, p[1], g[id].params[0], g[id].params[1], g[id].params[2], g[id].params[3], ramp)
  {
    hide EvalInputs, OnRamp, Ramp;
    InputsFound(ops, g, g[id].inputs, p, fuel, vals);
    r, ramp := Eval(ops, g, id, p, fuel + 1).value.number, 0;
    var ps := g[id].params;
    if g[id].op.Remap? {
      RampOn(ops, vals[0], ps[0], ps[1], ps[2], ps[3]);
    } else if g[id].op.YGradient? {
      ramp := Ramp(ops, p[1], ps[0], ps[1], ps[2], ps[3]);
      RampOn(ops, p[1], ps[0], ps[1], ps[2], ps[3]);
    }
  }

  /** The position a warp or sample of its dimension reads at p. */
  ghost predicate ReadsAt(ops: Ops, g: Graph, node: NodeSpec, p: seq<f32>, fuel: nat, pos: seq<f32>)
    requires !node.Combine?
  {
    match node.source
    case Base =>
      if node.dim.D2? then |p| >= 2 && pos == [p[0], p[1]] else |p| >= 3 && pos == [p[0], p[1], p[2]]
    case Node(id) => Eval(ops, g, id, p, fuel) == Some(Coords(pos)) && |pos| == (if node.dim.D2? then 2 else 3)
  }

  lemma PositionFound(ops: Ops, g: Graph, id: string, p: seq<f32>, fuel: nat, pos: seq<f32>)
    requires id in g && !g[id].Combine? && ReadsAt(ops, g, g[id], p, fuel, pos)
    ensures g[id].Sample? ==> Yields(ops, g, id, p, fuel + 1, ops.noise(g[id].noise, pos))
    ensures g[id].Warp? ==> Eval(ops, g, id, p, fuel + 1) == Some(Coords(
      if g[id].dim.D2? then [ops.warp(g[id].noise, pos, 0), ops.warp(g[id].noise, pos, 1)]
      else [ops.warp(g[id].noise, pos, 0), ops.warp(g[id].noise, pos, 1), ops.warp(g[id].noise, pos, 2)]))
  {
    if g[id].source.Base? {
      assert pos == p[..g[id].dim.Arity()];
    }
    assert EvalSource(ops, g, g[id].dim, g[id].source, p, fuel) == Some(pos);
    if g[id].Warp? {
      var w := Warped(ops, g[id].noise, pos, g[id].dim.Arity());
      assert w == if g[id].dim.D2? then [w[0], w[1]] else [w[0], w[1], w[2]];
    }
  }

  // ---------------------------------------------------------------- laws

  /** Where addition undoes subtraction, adding back what was subtracted gives the first operand. */
  lemma AddUndoesSub(ops: Ops, g: Graph, sum: string, difference: string, a: string, b: string, p: seq<f32>,
                     fuel: nat, va: f32, vb: f32)
    requires forall x, y :: ops.add(ops.sub(x, y), y) == x
    requires sum in g && g[sum].Combine? && g[sum].op == Add && g[sum].inputs == [difference, b]
    requires difference in g && g[difference].Combine? && g[difference].op == Sub && g[difference].inputs == [a, b]
    requires |p| >= 2 && Yields(ops, g, a, p, fuel, va) && Yields(ops, g, b, p, fuel, vb)
    ensures Yields(ops, g, sum, p, fuel + 2, va)
  {
    hide Eval;
    BinaryNode(ops, g, difference, p, fuel, [va, vb]);
    EvalMonotone(ops, g, b, p, fuel, fuel + 1);
    BinaryNode(ops, g, sum, p, fuel + 1, [ops.sub(va, vb), vb]);
  }

  /** Arithmetic in which a ramp meets both its ends. */
  ghost predicate RampArithmetic(ops: Ops) {
    && (forall x :: ops.sub(x, x) == 0)
    && (forall x :: !ops.negligible(x) ==> ops.div(0, x) == 0 && ops.div(x, x) == 0x3F80_0000)
    && ops.clamp(0, 0, 0x3F80_0000) == 0 && ops.clamp(0x3F80_0000, 0, 0x3F80_0000) == 0x3F80_0000
    && (forall x :: ops.mul(x, 0) == 0 && ops.mul(x, 0x3F80_0000) == x)
    && (forall x :: ops.add(x, 0) == x)
    && (forall x, y :: ops.add(y, ops.sub(x, y)) == x)
  }

  /** The low end goes to the first target, the high end to the second; a negligible range is flat. */
  lemma RampEnds(ops: Ops, v: f32, lo: f32, hi: f32, from: f32, to: f32, r: f32)
    requires RampArithmetic(ops) && OnRamp(ops, v, lo, hi, from, to, r)
    ensures ops.negligible(ops.sub(hi, lo)) ==> r == from
    ensures !ops.negligible(ops.sub(hi, lo)) && v == lo ==> r == from
    ensures !ops.negligible(ops.sub(hi, lo)) && v == hi ==> r == to
  {}

  /** A remap sends the low end of its source range to the first target, the high end to the second. */
  lemma RemapEnds(ops: Ops, g: Graph, id: string, p: seq<f32>, fuel: nat, vals: seq<f32>) returns (r: f32)
    requires RampArithmetic(ops) && id in g && g[id].Combine? && g[id].op == Remap && |p| >= 2
    requires |g[id].inputs| >= 1 && |g[id].params| >= 4 && InputsYield(ops, g, g[id].inputs, p, fuel, vals)
    ensures Yields(ops, g, id, p, fuel + 1, r)
    ensures var ps := g[id].params;
      && (ops.negligible(ops.sub(ps[1], ps[0])) ==> r == ps[2])
      && (!ops.negligible(ops.sub(ps[1], ps[0])) && vals[0] == ps[0] ==> r == ps[2])
      && (!ops.negligible(ops.sub(ps[1], ps[0])) && vals[0] == ps[1] ==> r == ps[3])
  {
    hide Eval, OnRamp, RampArithmetic;
    var ps := g[id].params;
    var ramp;
    r, ramp := UnaryNode(ops, g, id, p, fuel, vals);
    RampEnds(ops, vals[0], ps[0], ps[1], ps[2], ps[3], r);
  }

  /** A gradient adds the first target at the low end of its y range, the second at the high end. */
  lemma GradientEnds(ops: Ops, g: Graph, id: string, p: seq<f32>, fuel: nat, vals: seq<f32>) returns (r: f32)
    requires RampArithmetic(ops) && id in g && g[id].Combine? && g[id].op == YGradient && |p| >= 2
    requires |g[id].inputs| >= 1 && |g[id].params| >= 4 && InputsYield(ops, g, g[id].inputs, p, fuel, vals)
    ensures Yields(ops, g, id, p, fuel + 1, r)
    ensures var ps := g[id].params;
      && (ops.negligible(ops.sub(ps[1], ps[0])) ==> r == ops.add(vals[0], ps[2]))
      && (!ops.negligible(ops.sub(ps[1], ps[0])) && p[1] == ps[0] ==> r == ops.add(vals[0], ps[2]))
      && (!ops.negligible(ops.sub(ps[1], ps[0])) && p[1] == ps[1] ==> r == ops.add(vals[0], ps[3]))
  {
    hide Eval, OnRamp, RampArithmetic;
    var ps := g[id].params;
    var ramp;
    r, ramp := UnaryNode(ops, g, id, p, fuel, vals);
    RampEnds(ops, p[1], ps[0], ps[1], ps[2], ps[3], ramp);
  }

  /** Where clamp is the larger of value and lower bound, cut at the upper one, so is a clamp node. */
  lemma ClampBounds(ops: Ops, g: Graph, id: string, p: seq<f32>, fuel: nat, vals: seq<f32>)
    requires forall v, lo, hi :: !ops.clampPanics(lo, hi) ==> ops.clamp(v, lo, hi) == ops.min(ops.max(v, lo), hi)
    requires id in g && g[id].Combine? && g[id].op == Clamp && |p| >= 2
    requires |g[id].inputs| >= 1 && |g[id].params| >= 2 && InputsYield(ops, g, g[id].inputs, p, fuel, vals)
    requires !ops.clampPanics(g[id].params[0], g[id].params[1])
    ensures Yields(ops, g, id, p, fuel + 1, ops.min(ops.max(vals[0], g[id].params[0]), g[id].params[1]))
  {
    hide Eval, OnRamp;
    var r, ramp := UnaryNode(ops, g, id, p, fuel, vals);
  }
}
