/** The CPU kernels: what each does to a packet view, and the loops that do it in place. */
module Runtime {
  import opened Common
  import opened Model
  import opened Semantics
  import opened Pipeline
  import opened Packet
  import opened Grid

  // ---------------------------------------------------------------- kernels on views

  function SliceOf(view: View, slot: u16, kind: ElementKind): (r: Result<BufferData>)
    ensures r.Ok? ==> slot in view.data && r.value == view.data[slot] && r.value.Kind() == kind
  {
    if slot !in view.data then Err(MissingBuffer(slot))
    else if view.data[slot].Kind() != kind then Err(InvalidBufferType(slot, kind))
    else Ok(view.data[slot])
  }

  function TotalSamples(offsets: seq<u32>): nat {
    if offsets == [] then 0 else offsets[|offsets| - 1]
  }

  function EnsureAll(view: View, slots: seq<u16>, total: nat): View {
    if slots == [] then view
    else Ensure(EnsureAll(view, slots[..|slots| - 1], total), slots[|slots| - 1], KindF32, total)
  }

  /** Replace the contents of several float slots. */
  function WithColumns(view: View, outs: seq<u16>, cols: seq<seq<f32>>): View
    requires |cols| == |outs|
  {
    if outs == [] then view
    else
      var v := WithColumns(view, outs[..|outs| - 1], cols[..|cols| - 1]);
      v.(data := v.data[outs[|outs| - 1] := F32(cols[|cols| - 1])])
  }

  /** Whether a kernel has the inputs and parameters its operator indexes. */
  predicate Ready(k: Kernel) {
    k.CombineKernel? ==> |k.inputs| >= InputCount(k.op) && |k.params| >= ParamCount(k.op)
  }

  function Ins(k: Kernel): seq<u16>
    requires !k.GridInit? && Ready(k)
  {
    match k
    case WarpKernel(source, _, _) => source
    case SampleKernel(source, _, _) => source
    case CombineKernel(op, inputs, _, _) =>
      if op.YGradient? then [inputs[0], SLOT_BASE_Y] else inputs[..InputCount(op)]
  }

  function Outs(k: Kernel): seq<u16>
    requires !k.GridInit?
  {
    match k
    case WarpKernel(_, output, _) => output
    case SampleKernel(_, out, _) => [out]
    case CombineKernel(_, _, out, _) => [out]
  }

  /** Component c of a kernel's output for one sample. */
  function SampleOut(ops: Ops, k: Kernel, args: seq<f32>, c: nat): f32
    requires !k.GridInit? && Ready(k) && |args| == |Ins(k)|
  {
    match k
    case WarpKernel(_, _, noise) => ops.warp(noise, args, c)
    case SampleKernel(_, _, noise) => ops.noise(noise, args)
    case CombineKernel(op, _, _, params) => Combined(ops, op, args, params)
  }

  predicate Readable(view: View, slots: seq<u16>, len: nat) {
    forall s :: s in slots ==> s in view.data && view.data[s].F32? && |view.data[s].f32s| >= len
  }

  function Args(view: View, slots: seq<u16>, i: nat): (r: seq<f32>)
    requires Readable(view, slots, i + 1)
    ensures |r| == |slots|
  {
    seq<f32>(|slots|, a requires 0 <= a < |slots| => view.data[slots[a]].f32s[i])
  }

  function Column(ops: Ops, k: Kernel, view: View, total: nat, c: nat): (r: seq<f32>)
    requires !k.GridInit? && Ready(k) && Readable(view, Ins(k), total)
    ensures |r| == total
  {
    seq<f32>(total, i requires 0 <= i < total => SampleOut(ops, k, Args(view, Ins(k), i), c))
  }

  function Columns(ops: Ops, k: Kernel, view: View, total: nat): (r: seq<seq<f32>>)
    requires !k.GridInit? && Ready(k) && Readable(view, Ins(k), total)
    ensures |r| == |Outs(k)| && forall c :: 0 <= c < |r| ==> r[c] == Column(ops, k, view, total, c)
  {
    seq(|Outs(k)|, c requires 0 <= c < |Outs(k)| => Column(ops, k, view, total, c))
  }

  predicate ClampPanics(ops: Ops, k: Kernel) {
    k.CombineKernel? && k.op.Clamp? && |k.params| >= 2 && ops.clampPanics(k.params[0], k.params[1])
  }

  /** A pointwise kernel once its output buffers have been sized. */
  function Compute(ops: Ops, k: Kernel, view: View, total: nat): Result<View>
    requires !k.GridInit?
  {
    if !Ready(k) then Err(Panicked)
    else
      var slots := Ins(k) + Outs(k);
      var error := SliceError(view, KindF32, slots, |slots|);
      if error.Some? then Err(error.value)
      else if !Readable(view, Ins(k), total) then Err(Panicked) // index out of bounds
      else if total > 0 && ClampPanics(ops, k) then Err(Panicked)
      else Ok(WithColumns(view, Outs(k), Columns(ops, k, view, total)))
  }

  /** Warp, sample and combine kernels, uninterrupted. */
  function Pointwise(ops: Ops, k: Kernel, view: View): Result<View>
    requires !k.GridInit?
  {
    var offsets :- SliceOf(view, SLOT_QUERY_OFFSETS, KindU32);
    var total := TotalSamples(offsets.u32s);
    Compute(ops, k, EnsureAll(view, Outs(k), total), total)
  }

  // ---------------------------------------------------------------- grid initialisation on views

  /** The grid of query q as stored in the packet; None when an index is out of bounds. */
  function StoredBox(dims: nat, meta: seq<u32>, floats: seq<f32>, q: nat): (r: Option<Box>)
    requires 2 <= dims <= 3
    ensures r.Some? ==> |r.value.origin| == dims && |r.value.step| == dims
  {
    if 3 * q + dims > |meta| || 6 * q + 3 + dims > |floats| then None
    else
      Some(Box(meta[3 * q], meta[3 * q + 1], if dims == 2 then 1 else meta[3 * q + 2],
               floats[6 * q..6 * q + dims], floats[6 * q + 3..6 * q + 3 + dims]))
  }

  function PutPoint(cols: seq<seq<f32>>, at: nat, p: seq<f32>): (r: seq<seq<f32>>)
    requires |cols| == |p| && forall a :: 0 <= a < |cols| ==> at < |cols[a]|
    ensures |r| == |cols| && forall a :: 0 <= a < |cols| ==> r[a] == cols[a][at := p[a]]
  {
    seq(|cols|, a requires 0 <= a < |cols| => cols[a][at := p[a]])
  }

  ghost predicate Columnar(cols: seq<seq<f32>>, dims: nat, len: nat) {
    |cols| == dims && forall a :: 0 <= a < dims ==> |cols[a]| == len
  }

  /** The first n samples of one grid written from offset on. */
  ghost function GridColumns(ops: Ops, dims: nat, box: Box, offset: nat, n: nat, cols: seq<seq<f32>>,
                             len: nat): (r: Option<seq<seq<f32>>>)
    requires 2 <= dims <= 3 && |box.origin| == |box.step| == dims && Columnar(cols, dims, len)
    ensures r.Some? ==> Columnar(r.value, dims, len)
  {
    if n == 0 then Some(cols)
    else
      var before := GridColumns(ops, dims, box, offset, n - 1, cols, len);
      if before.None? || offset + n - 1 >= len then None
      else Some(PutPoint(before.value, offset + n - 1, PointAt(ops, dims, box, n - 1)))
  }

  /** The first n grids of the batch. */
  ghost function BatchColumns(
    ops: Ops, dims: nat, meta: seq<u32>, floats: seq<f32>, offsets: seq<u32>, n: nat, cols: seq<seq<f32>>, len: nat)
    : (r: Option<seq<seq<f32>>>)
    requires 2 <= dims <= 3 && n <= |offsets| && Columnar(cols, dims, len)
    ensures r.Some? ==> Columnar(r.value, dims, len)
  {
    if n == 0 then Some(cols)
    else
      var before := BatchColumns(ops, dims, meta, floats, offsets, n - 1, cols, len);
      var box := StoredBox(dims, meta, floats, n - 1);
      if before.None? || box.None? then None
      else GridColumns(ops, dims, box.value, offsets[n - 1], box.value.Count(), before.value, len)
  }

  /** A buffer for the third coordinate is there, whatever its length. */
  predicate HasThird(view: View) {
    SLOT_BASE_Z in view.data && view.data[SLOT_BASE_Z].F32?
  }

  predicate Sized(view: View, slots: seq<u16>, total: nat) {
    forall a :: 0 <= a < |slots| ==>
      slots[a] in view.data && view.data[slots[a]].F32? && |view.data[slots[a]].f32s| == total
  }

  function FloatColumns(view: View, slots: seq<u16>, total: nat): (r: seq<seq<f32>>)
    requires Sized(view, slots, total)
    ensures |r| == |slots| && forall a :: 0 <= a < |slots| ==> r[a] == view.data[slots[a]].f32s && |r[a]| == total
  {
    seq(|slots|, a requires 0 <= a < |slots| => view.data[slots[a]].f32s)
  }

  lemma {:induction false} EnsureAllAt(view: View, slots: seq<u16>, total: nat)
    ensures EnsureAll(view, slots, total).queryCount == view.queryCount
    ensures EnsureAll(view, slots, total).data.Keys == view.data.Keys + Elements(slots)
    ensures forall s :: s in slots ==>
      && EnsureAll(view, slots, total).data[s].F32?
      && |EnsureAll(view, slots, total).data[s].f32s| == total
    ensures Sized(EnsureAll(view, slots, total), slots, total)
    ensures forall s :: s in view.data && s !in slots ==> EnsureAll(view, slots, total).data[s] == view.data[s]
  {
    if slots != [] {
      EnsureAllAt(view, slots[..|slots| - 1], total);
      assert slots == slots[..|slots| - 1] + [slots[|slots| - 1]];
    }
  }

  /** Grid initialisation once the base buffers have been sized. */
  ghost function Initialise(
    ops: Ops, dims: nat, meta: seq<u32>, floats: seq<f32>, offsets: seq<u32>, n: nat, view: View,
    total: nat): Result<View>
    requires 2 <= dims <= 3 && n <= |offsets| && Sized(view, BaseSlots(dims), total)
  {
    match BatchColumns(ops, dims, meta, floats, offsets, n, FloatColumns(view, BaseSlots(dims), total), total)
    case None => Err(Panicked)
    case Some(cols) => Ok(WithColumns(view, BaseSlots(dims), cols))
  }

  /** InitGrid2d and InitGrid3d, uninterrupted. */
  ghost function GridInited(ops: Ops, dim: GraphDimension, view: View): Result<View> {
    var meta :- SliceOf(view, SLOT_QUERY_META, KindU32);
    var floats :- SliceOf(view, SLOT_QUERY_F32, KindF32);
    var offsets :- SliceOf(view, SLOT_QUERY_OFFSETS, KindU32);
    var total := TotalSamples(offsets.u32s);
    var slots := BaseSlots(dim.Arity());
    EnsureAllAt(view, slots, total);
    var n := if view.queryCount < |offsets.u32s| then view.queryCount else |offsets.u32s|;
    Initialise(ops, dim.Arity(), meta.u32s, floats.f32s, offsets.u32s, n, EnsureAll(view, slots, total), total)
  }

  ghost function RunKernel(ops: Ops, k: Kernel, view: View): Result<View> {
    match k
    case GridInit(dim) => GridInited(ops, dim, view)
    case _ => Pointwise(ops, k, view)
  }

  /** One stage: its kernels in order. */
  ghost function RunStage(ops: Ops, kernels: seq<Kernel>, view: View): Result<View> {
    if kernels == [] then Ok(view)
    else
      var before :- RunStage(ops, kernels[..|kernels| - 1], view);
      RunKernel(ops, kernels[|kernels| - 1], before)
  }

  // ---------------------------------------------------------------- element kinds

  /** Every FastNoise plan gives a slot the same element kind. */
  function KindAt(slot: u16): ElementKind {
    if slot == SLOT_QUERY_META || slot == SLOT_QUERY_OFFSETS then KindU32 else KindF32
  }

  ghost predicate Kinded(view: View) {
    forall s :: s in view.data ==> view.data[s].Kind() == KindAt(s)
  }

  function Targets(k: Kernel): seq<u16> {
    match k
    case GridInit(dim) => BaseSlots(dim.Arity())
    case _ => Outs(k)
  }

  /** The kernel writes float slots only. */
  ghost predicate FloatKernel(k: Kernel) {
    forall s :: s in Targets(k) ==> KindAt(s) == KindF32
  }

  /** Same slots, same kinds. */
  ghost predicate KindsKept(view: View, now: View) {
    now.data.Keys == view.data.Keys && forall s :: s in view.data ==> now.data[s].Kind() == view.data[s].Kind()
  }

  lemma EnsureAllKinded(view: View, slots: seq<u16>, total: nat)
    requires Kinded(view) && forall s :: s in slots ==> KindAt(s) == KindF32
    ensures Kinded(EnsureAll(view, slots, total))
  {
    EnsureAllAt(view, slots, total);
    forall s | s in EnsureAll(view, slots, total).data
      ensures EnsureAll(view, slots, total).data[s].Kind() == KindAt(s)
    {
      assert s in EnsureAll(view, slots, total).data.Keys;
    }
  }

  lemma KeptKinded(view: View, now: View)
    requires Kinded(view) && KindsKept(view, now)
    ensures Kinded(now)
  {}
}
