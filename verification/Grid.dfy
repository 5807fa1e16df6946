/** Query batches: prefix-sum offsets, the grid of sample points, and slicing results back per query. */
module Grid {
  import opened Common
  import opened Model
  import opened Semantics
  import opened Pipeline
  import opened Packet

  // ---------------------------------------------------------------- sample points

  /** Index of cell (x, y, z) in a row-major grid. */
  function GridIndex(w: nat, h: nat, x: nat, y: nat, z: nat): nat {
    (z * h + y) * w + x
  }

  lemma DivMod(q: nat, w: nat, x: nat)
    requires x < w
    ensures (q * w + x) / w == q && (q * w + x) % w == x
  {
    var n := q * w + x;
    var d, r := n / w, n % w;
    assert n == w * d + r && 0 <= r < w;
    assert w * (d - q) == x - r;
    if d != q {
      MulApart(w, d - q);
    }
  }

  lemma MulApart(w: nat, k: int)
    requires k != 0
    ensures w * k >= w || w * k + w <= 0
  {}

  lemma MulLe(a: nat, b: nat, w: nat)
    requires a <= b
    ensures w * a <= w * b
  {}

  lemma Positive(w: nat, h: nat, d: nat)
    requires w * h * d > 0
    ensures w > 0 && h > 0 && d > 0
  {
    assert w == 0 || h == 0 ==> w * h == 0;
  }

  /** The grid index is a bijection between the cells and [0, w*h*d). */
  lemma GridIndexBijective(w: nat, h: nat, d: nat, x: nat, y: nat, z: nat)
    requires x < w && y < h && z < d
    ensures GridIndex(w, h, x, y, z) < w * h * d
    ensures var i := GridIndex(w, h, x, y, z); CellX(w, i) == x && CellY(w, h, i) == y && CellZ(w, h, i) == z
  {
    DivMod(z * h + y, w, x);
    DivMod(z, h, y);
    MulLe(z + 1, d, h);
    MulLe(z * h + y + 1, h * d, w);
    assert w * (h * d) == w * h * d;
    assert w * (z * h + y + 1) == (z * h + y) * w + w;
  }

  lemma GridIndexOnto(w: nat, h: nat, d: nat, i: nat)
    requires i < w * h * d
    ensures CellX(w, i) < w && CellY(w, h, i) < h && CellZ(w, h, i) < d
    ensures GridIndex(w, h, CellX(w, i), CellY(w, h, i), CellZ(w, h, i)) == i
  {
    Positive(w, h, d);
    var q := i / w;
    assert i == q * w + i % w;
    assert q == (q / h) * h + q % h;
    assert w * (h * d) == w * h * d;
    DivLess(i, w, h * d);
    DivLess(q, h, d);
  }

  lemma DivLess(n: nat, w: nat, k: nat)
    requires w > 0 && n < w * k
    ensures n / w < k
  {
    var d := n / w;
    assert w * d <= n;
    if d >= k {
      MulLe(k, d, w);
    }
  }

  /** One axis of a grid: origin + index * step. */
  function Axis(ops: Ops, origin: f32, step: f32, index: nat): f32 {
    ops.add(origin, ops.mul(ops.ofIndex(index), step))
  }

  /** A grid as the init kernel sees it. */
  datatype Box = Box(width: nat, height: nat, depth: nat, origin: seq<f32>, step: seq<f32>) {
    function Count(): nat {
      width * height * depth
    }
  }

  /** The cell of sample i; zero on an empty grid. */
  function CellX(w: nat, i: nat): nat {
    if w == 0 then 0 else i % w
  }

  function CellY(w: nat, h: nat, i: nat): nat {
    if w == 0 || h == 0 then 0 else i / w % h
  }

  function CellZ(w: nat, h: nat, i: nat): nat {
    if w == 0 || h == 0 then 0 else i / w / h
  }

  /** Coordinates of cell (x, y, z), for the first dims axes. */
  function PointOf(ops: Ops, dims: nat, box: Box, x: nat, y: nat, z: nat): (p: seq<f32>)
    requires 2 <= dims <= 3 && |box.origin| >= dims && |box.step| >= dims
    ensures |p| == dims
  {
    var xy := [Axis(ops, box.origin[0], box.step[0], x), Axis(ops, box.origin[1], box.step[1], y)];
    if dims == 2 then xy else xy + [Axis(ops, box.origin[2], box.step[2], z)]
  }

  /** Coordinates of sample i. */
  function PointAt(ops: Ops, dims: nat, box: Box, i: nat): (p: seq<f32>)
    requires 2 <= dims <= 3 && |box.origin| >= dims && |box.step| >= dims
    ensures |p| == dims
  {
    PointOf(ops, dims, box, CellX(box.width, i), CellY(box.width, box.height, i), CellZ(box.width, box.height, i))
  }

  function BoxOf(q: ChunkQuery): Box {
    Box(q.width, q.height, q.Depth(), q.origin, q.step)
  }

  predicate ValidBatch(dim: GraphDimension, queries: seq<ChunkQuery>) {
    forall q :: 0 <= q < |queries| ==> queries[q].Valid() && queries[q].Dim() == dim
  }

  /** The sample points of one query, in sample order. */
  function QueryPoints(ops: Ops, q: ChunkQuery): (ps: seq<seq<f32>>)
    requires q.Valid()
    ensures |ps| == q.Samples()
    ensures forall i :: 0 <= i < |ps| ==> |ps[i]| == q.Dim().Arity()
  {
    seq(q.Samples(), i requires 0 <= i < q.Samples() => PointAt(ops, q.Dim().Arity(), BoxOf(q), i))
  }

  /** Cell (x, y, z) of the query's grid is its sample i: x moves fastest, then y, then z. */
  ghost predicate CellOf(q: ChunkQuery, x: nat, y: nat, z: nat, i: nat) {
    && x < q.width && y < q.height && (if q.Grid2D? then z == 0 else z < q.depth)
    && i == (z * q.height + y) * q.width + x
  }

  lemma SampleCount(ops: Ops, q: ChunkQuery)
    requires q.Valid()
    ensures |QueryPoints(ops, q)| == if q.Grid2D? then q.width * q.height else q.width * q.height * q.depth
  {}

  /** Cell (x, y, z) of a query is a sample, and its coordinates come from x, y and z, axis by axis. */
  lemma CellPoint(ops: Ops, q: ChunkQuery, x: nat, y: nat, z: nat, i: nat)
    requires q.Valid() && CellOf(q, x, y, z, i)
    ensures i < |QueryPoints(ops, q)| && |QueryPoints(ops, q)[i]| == if q.Grid2D? then 2 else 3
    ensures var p := QueryPoints(ops, q)[i];
      && p[0] == ops.add(q.origin[0], ops.mul(ops.ofIndex(x), q.step[0]))
      && p[1] == ops.add(q.origin[1], ops.mul(ops.ofIndex(y), q.step[1]))
      && (q.Grid3D? ==> p[2] == ops.add(q.origin[2], ops.mul(ops.ofIndex(z), q.step[2])))
  {
    GridIndexBijective(q.width, q.height, q.Depth(), x, y, z);
  }

  /** Moving along one axis of a query leaves the other coordinates as they are. */
  lemma OneAxisMoves(
    ops: Ops, q: ChunkQuery, x: nat, y: nat, z: nat, i: nat, x': nat, y': nat, z': nat, i': nat)
    requires q.Valid() && CellOf(q, x, y, z, i) && CellOf(q, x', y', z', i')
    ensures i < |QueryPoints(ops, q)| && i' < |QueryPoints(ops, q)|
    ensures var p, p' := QueryPoints(ops, q)[i], QueryPoints(ops, q)[i'];
      && (x == x' ==> p[0] == p'[0]) && (y == y' ==> p[1] == p'[1])
      && (q.Grid3D? && z == z' ==> p[2] == p'[2])
  {
    hide QueryPoints, CellOf;
    CellPoint(ops, q, x, y, z, i);
    CellPoint(ops, q, x', y', z', i');
  }

  function Total(queries: seq<ChunkQuery>): nat {
    if queries == [] then 0 else Total(queries[..|queries| - 1]) + queries[|queries| - 1].Samples()
  }

  /** All sample points of a batch, query after query. */
  function BatchPoints(ops: Ops, dim: GraphDimension, queries: seq<ChunkQuery>): (ps: seq<seq<f32>>)
    requires ValidBatch(dim, queries)
    ensures |ps| == Total(queries)
    ensures forall i :: 0 <= i < |ps| ==> |ps[i]| == dim.Arity()
  {
    if queries == [] then []
    else BatchPoints(ops, dim, queries[..|queries| - 1]) + QueryPoints(ops, queries[|queries| - 1])
  }

  /** Where query k's samples begin. */
  function Start(queries: seq<ChunkQuery>, k: nat): nat
    requires k <= |queries|
  {
    Total(queries[..k])
  }

  lemma {:induction false} TotalPrefix(queries: seq<ChunkQuery>, k: nat)
    requires k <= |queries|
    ensures Total(queries[..k]) <= Total(queries)
    ensures k < |queries| ==> Total(queries[..k + 1]) == Total(queries[..k]) + queries[k].Samples()
    decreases |queries|
  {
    if k < |queries| {
      assert queries[..k + 1][..k] == queries[..k];
      var init := queries[..|queries| - 1];
      TotalPrefix(init, k);
      assert init[..k] == queries[..k];
    } else {
      assert queries[..k] == queries;
    }
  }

  lemma {:induction false} BatchPointsSplit(ops: Ops, dim: GraphDimension, queries: seq<ChunkQuery>, k: nat)
    requires ValidBatch(dim, queries) && k < |queries|
    ensures Start(queries, k) <= Start(queries, k + 1) <= Total(queries)
    ensures BatchPoints(ops, dim, queries)[Start(queries, k)..Start(queries, k + 1)] == QueryPoints(ops, queries[k])
    decreases |queries|
  {
    hide QueryPoints, Total;
    TotalPrefix(queries, k);
    TotalPrefix(queries, k + 1);
    var init, last := queries[..|queries| - 1], queries[|queries| - 1];
    assert queries[..|queries|] == queries;
    if k < |init| {
      BatchPointsSplit(ops, dim, init, k);
      assert init[..k] == queries[..k] && init[..k + 1] == queries[..k + 1];
      TakeInside(BatchPoints(ops, dim, init), QueryPoints(ops, last), Start(queries, k), Start(queries, k + 1));
    } else {
      assert queries[..k] == init;
    }
  }

  lemma TakeInside<T>(u: seq<T>, v: seq<T>, a: nat, e: nat)
    requires a <= e <= |u|
    ensures (u + v)[a..e] == u[a..e]
  {}

  // ---------------------------------------------------------------- encoding

  function Cast(n: nat): u32 {
    n % 0x1_0000_0000
  }

  function MetaOf(queries: seq<ChunkQuery>): (r: seq<u32>)
    ensures |r| == 3 * |queries|
  {
    if queries == [] then []
    else
      var q := queries[|queries| - 1];
      MetaOf(queries[..|queries| - 1]) + [Cast(q.width), Cast(q.height), Cast(q.Depth())]
  }

  /** Origin then step, padded to three axes with 0 and 1. */
  function FloatsOfQuery(q: ChunkQuery): (r: seq<f32>)
    requires q.Valid()
    ensures |r| == 6
  {
    if q.Grid2D? then [q.origin[0], q.origin[1], ZERO, q.step[0], q.step[1], ONE]
    else [q.origin[0], q.origin[1], q.origin[2], q.step[0], q.step[1], q.step[2]]
  }

  function FloatsOf(queries: seq<ChunkQuery>): (r: seq<f32>)
    requires forall q :: 0 <= q < |queries| ==> queries[q].Valid()
    ensures |r| == 6 * |queries|
  {
    if queries == [] then [] else FloatsOf(queries[..|queries| - 1]) + FloatsOfQuery(queries[|queries| - 1])
  }

  /** Prefix sums of the sample counts, each cast to 32 bits. */
  function OffsetsOf(queries: seq<ChunkQuery>): (r: seq<u32>)
    ensures |r| == |queries| + 1
  {
    if queries == [] then [0] else OffsetsOf(queries[..|queries| - 1]) + [Cast(Total(queries))]
  }

  /** encode_batch: a query of the wrong dimension panics. */
  function Encoded(dim: GraphDimension, queries: seq<ChunkQuery>, view: View): Result<View>
    requires forall q :: 0 <= q < |queries| ==> queries[q].Valid()
  {
    if ValidBatch(dim, queries) then
      Ok(View(|queries|, view.data[SLOT_QUERY_META := U32(MetaOf(queries))]
                                  [SLOT_QUERY_F32 := F32(FloatsOf(queries))]
                                  [SLOT_QUERY_OFFSETS := U32(OffsetsOf(queries))]))
    else Err(Panicked)
  }

  lemma {:induction false} OffsetAt(queries: seq<ChunkQuery>, k: nat)
    requires k <= |queries|
    ensures OffsetsOf(queries)[k] == Cast(Total(queries[..k]))
    decreases |queries|
  {
    if k < |queries| {
      var init := queries[..|queries| - 1];
      OffsetAt(init, k);
      assert init[..k] == queries[..k];
    } else {
      assert queries[..k] == queries;
    }
  }

  lemma {:induction false} MetaAt(queries: seq<ChunkQuery>, k: nat)
    requires k < |queries|
    ensures MetaOf(queries)[3 * k] == Cast(queries[k].width)
    ensures MetaOf(queries)[3 * k + 1] == Cast(queries[k].height)
    ensures MetaOf(queries)[3 * k + 2] == Cast(queries[k].Depth())
    decreases |queries|
  {
    if k < |queries| - 1 {
      MetaAt(queries[..|queries| - 1], k);
    }
  }

  /**
   * What encoding stores of query k: its sides in buffer 0, its origin and step in buffer 1, with 0 and 1 for a
   * missing third axis, and in buffer 2 where its samples begin and end, all in 32 bits.
   */
  lemma EncodedLayout(dim: GraphDimension, queries: seq<ChunkQuery>, view: View, k: nat)
    requires ValidBatch(dim, queries) && k < |queries|
    ensures Encoded(dim, queries, view).Ok? && Encoded(dim, queries, view).value.queryCount == |queries|
    ensures var now, q := Encoded(dim, queries, view).value.data, queries[k];
      && 0 in now && 1 in now && 2 in now && now[0].U32? && now[1].F32? && now[2].U32?
      && |now[0].u32s| == 3 * |queries| && |now[1].f32s| == 6 * |queries| && |now[2].u32s| == |queries| + 1
      && now[0].u32s[3 * k] == q.width % 0x1_0000_0000 && now[0].u32s[3 * k + 1] == q.height % 0x1_0000_0000
      && now[0].u32s[3 * k + 2] == (if q.Grid2D? then 1 else q.depth % 0x1_0000_0000)
      && now[1].f32s[6 * k..6 * k + 6] ==
           (if q.Grid2D? then [q.origin[0], q.origin[1], 0, q.step[0], q.step[1], 0x3F80_0000]
            else [q.origin[0], q.origin[1], q.origin[2], q.step[0], q.step[1], q.step[2]])
      && now[2].u32s[0] == 0
      && now[2].u32s[k + 1] == (Start(queries, k) + q.width * q.height * (if q.Grid2D? then 1 else q.depth))
                               % 0x1_0000_0000
    ensures forall s :: s in view.data && s > 2 ==>
      s in Encoded(dim, queries, view).value.data && Encoded(dim, queries, view).value.data[s] == view.data[s]
  {
    hide MetaOf, FloatsOf, OffsetsOf;
    MetaAt(queries, k);
    FloatsAt(queries, k);
    OffsetAt(queries, 0);
    OffsetAt(queries, k + 1);
    TotalPrefix(queries, k);
    assert queries[..0] == [];
  }

  lemma {:induction false} FloatsAt(queries: seq<ChunkQuery>, k: nat)
    requires k < |queries| && forall q :: 0 <= q < |queries| ==> queries[q].Valid()
    ensures FloatsOf(queries)[6 * k..6 * k + 6] == FloatsOfQuery(queries[k])
    decreases |queries|
  {
    var init := queries[..|queries| - 1];
    if k < |init| {
      FloatsAt(init, k);
      assert FloatsOf(queries)[6 * k..6 * k + 6] == FloatsOf(init)[6 * k..6 * k + 6];
    }
  }

  /** Offsets are true prefix sums exactly when the whole batch has fewer than 2^32 samples. */
  lemma OffsetsExact(queries: seq<ChunkQuery>)
    ensures (forall k :: 0 <= k <= |queries| ==> OffsetsOf(queries)[k] == Start(queries, k))
      <==> Total(queries) < U32_COUNT
  {
    hide OffsetsOf, Total, Cast;
    forall k | 0 <= k <= |queries|
      ensures OffsetsOf(queries)[k] == Cast(Start(queries, k)) && Start(queries, k) <= Total(queries)
    {
      OffsetAt(queries, k);
      TotalPrefix(queries, k);
    }
    assert Start(queries, |queries|) == Total(queries) by { assert queries[..|queries|] == queries; }
    forall n: nat ensures n < U32_COUNT <==> Cast(n) == n { CastExact(n); }
  }

  lemma CastExact(n: nat)
    ensures Cast(n) == n <==> n < U32_COUNT
  {}

  // ---------------------------------------------------------------- decoding

  /** Cut values at the offsets; a slice out of range panics. */
  function Cut(values: seq<f32>, offsets: seq<u32>, n: nat): Result<seq<seq<f32>>>
    requires n < |offsets|
  {
    if n == 0 then Ok([])
    else
      var before :- Cut(values, offsets, n - 1);
      var start := if n == 1 then 0 else offsets[n - 1];
      if start <= offsets[n] <= |values| then Ok(before + [values[start..offsets[n]]]) else Err(Panicked)
  }

  /** decode_batch, up to the per-query summary: the slice each summary is computed from. */
  function Decoded(finalSlot: u16, view: View): Result<seq<seq<f32>>> {
    if finalSlot !in view.data then Err(MissingBuffer(finalSlot))
    else if !view.data[finalSlot].F32? then Err(InvalidBufferType(finalSlot, KindF32))
    else if SLOT_QUERY_OFFSETS !in view.data then Err(MissingBuffer(SLOT_QUERY_OFFSETS))
    else if !view.data[SLOT_QUERY_OFFSETS].U32? then Err(InvalidBufferType(SLOT_QUERY_OFFSETS, KindU32))
    else
      var offsets := view.data[SLOT_QUERY_OFFSETS].u32s;
      if offsets == [] then Ok([]) else Cut(view.data[finalSlot].f32s, offsets, |offsets| - 1)
  }

  /** Values laid out by a batch are cut back into the queries' own runs of samples. */
  lemma {:induction false} CutBatch(queries: seq<ChunkQuery>, values: seq<f32>, n: nat)
    requires n <= |queries| && |values| == Total(queries) < U32_COUNT
    ensures Cut(values, OffsetsOf(queries), n).Ok? && |Cut(values, OffsetsOf(queries), n).value| == n
    ensures forall k :: 0 <= k < n ==> IsRun(queries, values, k, Cut(values, OffsetsOf(queries), n).value[k])
  {
    hide OffsetsOf, Total, Start, IsRun;
    if n > 0 {
      CutBatch(queries, values, n - 1);
      CutOne(queries, values, n);
    }
  }

  /** piece holds the samples of query k. */
  ghost predicate IsRun<T>(queries: seq<ChunkQuery>, values: seq<T>, k: nat, piece: seq<T>)
    requires k < |queries|
  {
    Start(queries, k) <= Start(queries, k + 1) <= |values| && piece == values[Start(queries, k)..Start(queries, k + 1)]
  }

  lemma CutOne(queries: seq<ChunkQuery>, values: seq<f32>, n: nat)
    requires 0 < n <= |queries| && |values| == Total(queries) < U32_COUNT
    ensures var offsets := OffsetsOf(queries);
      var start := if n == 1 then 0 else offsets[n - 1];
      start <= offsets[n] <= |values| && IsRun(queries, values, n - 1, values[start..offsets[n]])
  {
    hide OffsetsOf, Total, Cast;
    CastExact(Start(queries, n - 1));
    CastExact(Start(queries, n));
    OffsetAt(queries, n - 1);
    OffsetAt(queries, n);
    TotalPrefix(queries, n - 1);
    TotalPrefix(queries, n);
    StartZero(queries);
  }

  lemma StartZero(queries: seq<ChunkQuery>)
    ensures Start(queries, 0) == 0
  {
    assert queries[..0] == [];
  }
}
