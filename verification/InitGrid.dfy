/** Grid initialisation writes the sample points of an encoded batch. */
module InitGrid {
  import opened Common
  import opened Model
  import opened Semantics
  import opened Pipeline
  import opened Packet
  import opened Grid
  import opened Runtime
  import opened Kernels
  import opened Carry

  /** Nothing is left in the packet but empty buffers: the state clear_for_reuse establishes. */
  ghost predicate Blank(view: View) {
    forall s :: s in view.data ==> view.data[s].Len() == 0
  }

  lemma ClearedBlank(view: View)
    ensures Blank(Cleared(view))
  {}

  /** The first n cells of every column hold the first n points. */
  ghost predicate Laid(cols: seq<seq<f32>>, dims: nat, points: seq<seq<f32>>, n: nat) {
    && Rows(points, |points|, dims) && Columnar(cols, dims, |points|) && n <= |points|
    && forall a, i :: 0 <= a < dims && 0 <= i < n ==> cols[a][i] == points[i][a]
  }

  /** One grid, written from its offset on, extends the laid points by its own. */
  lemma {:induction false} GridLaid(
    ops: Ops, dims: nat, box: Box, offset: nat, n: nat, cols: seq<seq<f32>>, points: seq<seq<f32>>)
    requires 2 <= dims <= 3 && |box.origin| == |box.step| == dims
    requires Laid(cols, dims, points, offset) && offset + n <= |points|
    requires forall m :: 0 <= m < n ==> points[offset + m] == PointAt(ops, dims, box, m)
    ensures GridColumns(ops, dims, box, offset, n, cols, |points|).Some?
    ensures Laid(GridColumns(ops, dims, box, offset, n, cols, |points|).value, dims, points, offset + n)
  {
    hide PointAt;
    if n > 0 {
      GridLaid(ops, dims, box, offset, n - 1, cols, points);
      assert points[offset + (n - 1)] == PointAt(ops, dims, box, n - 1);
    }
  }

  lemma Grows(a: nat, b: nat)
    requires b > 0
    ensures a <= a * b
  {
    MulLe(1, b, a);
  }

  lemma FactorsBelow(w: nat, h: nat, d: nat)
    requires 0 < w * h * d
    ensures w <= w * h * d && h <= w * h * d && d <= w * h * d
  {
    Positive(w, h, d);
    Grows(w, h);
    Grows(h, w);
    Grows(w * h, d);
    Grows(d, w * h);
  }

  lemma ZeroProduct(w: nat, h: nat, d: nat)
    requires w == 0 || h == 0 || d == 0
    ensures w * h * d == 0
  {}

  lemma ProductPositive(w: nat, h: nat, d: nat)
    requires w > 0 && h > 0 && d > 0
    ensures w * h * d > 0
  {}

  /** The 32-bit casts change no count below 2^32. */
  lemma CastCount(w: nat, h: nat, d: nat)
    requires w * h * d < U32_COUNT
    ensures Cast(w) * Cast(h) * Cast(d) == w * h * d
    ensures w * h * d > 0 ==> Cast(w) == w && Cast(h) == h && Cast(d) == d
  {
    if w > 0 && h > 0 && d > 0 {
      ProductPositive(w, h, d);
      FactorsBelow(w, h, d);
    } else {
      ZeroProduct(w, h, d);
      ZeroProduct(Cast(w), Cast(h), Cast(d));
    }
  }

  lemma SubSlice<T>(s: seq<T>, at: nat, n: nat, a: nat, e: nat)
    requires at + n <= |s| && a <= e <= n
    ensures s[at..at + n][a..e] == s[at + a..at + e]
  {
    var u, v := s[at..at + n][a..e], s[at + a..at + e];
    forall i | 0 <= i < |u| ensures u[i] == v[i] {}
  }

  lemma BoxParts(dims: nat, meta: seq<u32>, floats: seq<f32>, k: nat, f: seq<f32>)
    requires 2 <= dims <= 3 && 3 * k + 3 <= |meta| && 6 * k + 6 <= |floats| && f == floats[6 * k..6 * k + 6]
    ensures |f| == 6
    ensures StoredBox(dims, meta, floats, k)
         == Some(Box(meta[3 * k], meta[3 * k + 1], if dims == 2 then 1 else meta[3 * k + 2], f[..dims], f[3..3 + dims]))
  {
    SubSlice(floats, 6 * k, 6, 0, dims);
    SubSlice(floats, 6 * k, 6, 3, 3 + dims);
  }

  /** The grid the packet stores for query k. */
  lemma StoredParts(dim: GraphDimension, queries: seq<ChunkQuery>, k: nat)
    requires ValidBatch(dim, queries) && k < |queries|
    ensures var q := queries[k];
      StoredBox(dim.Arity(), MetaOf(queries), FloatsOf(queries), k)
        == Some(Box(Cast(q.width), Cast(q.height), Cast(q.Depth()), q.origin, q.step))
  {
    hide MetaOf, FloatsOf, StoredBox, FloatsOfQuery, Cast;
    var q := queries[k];
    assert q.Valid() && q.Dim() == dim;
    BoxParts(dim.Arity(), MetaOf(queries), FloatsOf(queries), k, FloatsOfQuery(q)) by {
      FloatsAt(queries, k);
    }
    MetaAt(queries, k);
    CastExact(1);
    FloatParts(q);
  }

  lemma FloatParts(q: ChunkQuery)
    requires q.Valid()
    ensures FloatsOfQuery(q)[..q.Dim().Arity()] == q.origin
    ensures FloatsOfQuery(q)[3..3 + q.Dim().Arity()] == q.step
  {}

  /** It has the query's own samples, despite the 32-bit casts. */
  lemma StoredGrid(ops: Ops, dim: GraphDimension, queries: seq<ChunkQuery>, k: nat)
    requires ValidBatch(dim, queries) && k < |queries| && queries[k].Samples() < U32_COUNT
    ensures StoredBox(dim.Arity(), MetaOf(queries), FloatsOf(queries), k).Some?
    ensures var box := StoredBox(dim.Arity(), MetaOf(queries), FloatsOf(queries), k).value;
      && box.Count() == queries[k].Samples()
      && forall m :: 0 <= m < queries[k].Samples() ==>
           PointAt(ops, dim.Arity(), box, m) == QueryPoints(ops, queries[k])[m]
  {
    hide PointAt, MetaOf, FloatsOf, Cast, StoredBox;
    var q := queries[k];
    StoredParts(dim, queries, k);
    CastCount(q.width, q.height, q.Depth());
    if q.Samples() > 0 {
      assert StoredBox(dim.Arity(), MetaOf(queries), FloatsOf(queries), k).value == BoxOf(q);
    }
  }

  lemma PrefixBelow(queries: seq<ChunkQuery>, k: nat)
    requires k < |queries|
    ensures Start(queries, k + 1) == Start(queries, k) + queries[k].Samples() <= Total(queries)
  {
    TotalPrefix(queries, k);
    TotalPrefix(queries, k + 1);
  }

  /** The init loop lays out the whole batch, each sample written once at its own index. */
  lemma {:induction false} BatchLaid(ops: Ops, dim: GraphDimension, queries: seq<ChunkQuery>, n: nat,
                                     cols: seq<seq<f32>>)
    requires ValidBatch(dim, queries) && n <= |queries| && Total(queries) < U32_COUNT
    requires Columnar(cols, dim.Arity(), Total(queries))
    ensures var r := BatchColumns(ops, dim.Arity(), MetaOf(queries), FloatsOf(queries), OffsetsOf(queries), n, cols,
                                  Total(queries));
      r.Some? && Laid(r.value, dim.Arity(), BatchPoints(ops, dim, queries), Start(queries, n))
  {
    hide MetaOf, FloatsOf, OffsetsOf, Total, BatchPoints, StoredBox, GridColumns, QueryPoints, Start;
    StartZero(queries);
    if n > 0 {
      BatchLaid(ops, dim, queries, n - 1, cols);
      PrefixBelow(queries, n - 1);
      StoredGrid(ops, dim, queries, n - 1);
      OffsetsExact(queries);
      BatchPointsSplit(ops, dim, queries, n - 1);
      var points := BatchPoints(ops, dim, queries);
      var at, e := Start(queries, n - 1), Start(queries, n);
      var box := StoredBox(dim.Arity(), MetaOf(queries), FloatsOf(queries), n - 1).value;
      var before := BatchColumns(ops, dim.Arity(), MetaOf(queries), FloatsOf(queries), OffsetsOf(queries), n - 1, cols,
                                 Total(queries)).value;
      forall m | 0 <= m < box.Count() ensures points[at + m] == PointAt(ops, dim.Arity(), box, m) {
        assert points[at..e][m] == points[at + m];
      }
      GridLaid(ops, dim.Arity(), box, at, box.Count(), before, points);
    }
  }

  lemma StartAll(queries: seq<ChunkQuery>)
    ensures Start(queries, |queries|) == Total(queries)
  {
    assert queries[..|queries|] == queries;
  }

  /** Fresh base buffers. */
  ghost function Zeros(dims: nat, len: nat): (r: seq<seq<f32>>)
    ensures Columnar(r, dims, len)
  {
    seq(dims, _ => seq<f32>(len, _ => 0))
  }

  ghost function RowsOf(cols: seq<seq<f32>>, dims: nat, len: nat): (r: seq<seq<f32>>)
    requires Columnar(cols, dims, len)
    ensures Rows(r, len, dims) && Laid(cols, dims, r, len)
  {
    seq(len, i requires 0 <= i < len => seq<f32>(dims, a requires 0 <= a < dims => cols[a][i]))
  }

  /** The points grid initialisation leaves in the base buffers; None when the batch makes it run out of bounds. */
  ghost function LaidPoints(ops: Ops, dim: GraphDimension, queries: seq<ChunkQuery>): (r: Option<seq<seq<f32>>>)
    requires ValidBatch(dim, queries)
    ensures r.Some? ==> Rows(r.value, TotalSamples(OffsetsOf(queries)), dim.Arity())
  {
    var dims, total := dim.Arity(), TotalSamples(OffsetsOf(queries));
    match BatchColumns(ops, dims, MetaOf(queries), FloatsOf(queries), OffsetsOf(queries), |queries|, Zeros(dims, total),
                       total)
    case None => None
    case Some(cols) => Some(RowsOf(cols, dims, total))
  }

  /** Below 2^32 samples these are the batch's points, and there is no way out of bounds. */
  lemma LaidBatch(ops: Ops, dim: GraphDimension, queries: seq<ChunkQuery>)
    requires ValidBatch(dim, queries) && Total(queries) < U32_COUNT
    ensures LaidPoints(ops, dim, queries) == Some(BatchPoints(ops, dim, queries))
  {
    hide MetaOf, FloatsOf, OffsetsOf, Total, BatchPoints, BatchColumns, Start;
    OffsetsExact(queries);
    StartAll(queries);
    var dims, total := dim.Arity(), TotalSamples(OffsetsOf(queries));
    assert total == Total(queries);
    BatchLaid(ops, dim, queries, |queries|, Zeros(dims, total));
    var cols := BatchColumns(ops, dims, MetaOf(queries), FloatsOf(queries), OffsetsOf(queries), |queries|,
                             Zeros(dims, total), total);
    RowsLaid(cols.value, dims, BatchPoints(ops, dim, queries));
  }

  lemma RowsLaid(cols: seq<seq<f32>>, dims: nat, points: seq<seq<f32>>)
    requires Laid(cols, dims, points, |points|)
    ensures RowsOf(cols, dims, |points|) == points
  {
    var rows := RowsOf(cols, dims, |points|);
    forall i | 0 <= i < |points| ensures rows[i] == points[i] {
      forall a | 0 <= a < dims ensures rows[i][a] == points[i][a] {}
    }
  }

  /** Sizing the base buffers of a packet without contents gives zeros. */
  lemma {:induction false} BlankColumns(view: View, slots: seq<u16>, total: nat)
    requires NoDuplicates(slots) && forall s :: s in slots && s in view.data ==> view.data[s].Len() == 0
    ensures forall a :: 0 <= a < |slots| ==>
      slots[a] in EnsureAll(view, slots, total).data
        && EnsureAll(view, slots, total).data[slots[a]] == F32(seq<f32>(total, _ => 0))
  {
    if slots != [] {
      var n := |slots| - 1;
      BlankColumns(view, slots[..n], total);
      EnsureAllAt(view, slots[..n], total);
      BlankEnsured(EnsureAll(view, slots[..n], total), slots[n], total);
      assert slots[n] !in slots[..n];
    }
  }

  lemma BlankEnsured(view: View, slot: u16, total: nat)
    requires slot in view.data ==> view.data[slot].Len() == 0
    ensures EnsuredData(view, slot, KindF32, total) == F32(seq<f32>(total, _ => 0))
  {
    var none: seq<f32> := [];
    var zeros := seq<f32>(total, _ => 0);
    assert Resize(none, total) == zeros by {
      assert none + zeros == zeros;
    }
    if slot in view.data && view.data[slot].F32? {
      assert view.data[slot] == F32(none);
    }
    assert EnsuredData(view, slot, KindF32, total) == Resized(F32(none), total);
  }

  /** Grid initialisation of an encoded blank packet: exactly the laid points, or a panic, whatever the packet. */
  lemma InitLays(ops: Ops, dim: GraphDimension, queries: seq<ChunkQuery>, view: View)
    requires ValidBatch(dim, queries) && Blank(view)
    ensures var r, points := GridInited(ops, dim, Encoded(dim, queries, view).value), LaidPoints(ops, dim, queries);
      && (r.Ok? <==> points.Some?)
      && (r.Ok? ==> Initialised(dim, view, r.value, points.value))
  {
    hide MetaOf, FloatsOf, OffsetsOf, Total, BatchColumns, WithColumns, EnsureAll, HasColumns, Initialised, RowsOf;
    hide Zeros;
    var v, slots, dims := Encoded(dim, queries, view).value, BaseSlots(dim.Arity()), dim.Arity();
    var total := TotalSamples(OffsetsOf(queries));
    EnsureAllAt(v, slots, total);
    var sized := EnsureAll(v, slots, total);
    assert NoDuplicates(slots);
    assert FloatColumns(sized, slots, total) == Zeros(dims, total) by { ZeroColumns(v, slots, total); }
    var done := BatchColumns(ops, dims, MetaOf(queries), FloatsOf(queries), OffsetsOf(queries), |queries|,
                             Zeros(dims, total), total);
    if done.Some? {
      var now := WithColumns(sized, slots, done.value);
      WithColumnsAt(sized, slots, done.value);
      assert GridInited(ops, dim, v) == Ok(now);
      InitFrame(dim, view, v, sized, now, slots, done.value, total);
      LaidInit(dim, view, queries, sized, now, slots, done.value, total);
    }
  }

  lemma ZeroColumns(v: View, slots: seq<u16>, total: nat)
    requires NoDuplicates(slots) && forall s :: s in slots && s in v.data ==> v.data[s].Len() == 0
    ensures Sized(EnsureAll(v, slots, total), slots, total)
    ensures FloatColumns(EnsureAll(v, slots, total), slots, total) == Zeros(|slots|, total)
  {
    hide EnsureAll;
    EnsureAllAt(v, slots, total);
    BlankColumns(v, slots, total);
  }

  /** The base buffers hold these points, and the packet says how many. */
  ghost predicate Initialised(dim: GraphDimension, view: View, now: View, points: seq<seq<f32>>) {
    && HasTotal(now, |points|) && Rows(points, |points|, dim.Arity())
    && Carries(now, BaseSlots(dim.Arity()), points)
    && (dim.D2? ==> !Readable(now, [SLOT_BASE_Z], 1) && (HasThird(now) <==> HasThird(view)))
  }

  lemma LaidInit(dim: GraphDimension, view: View, queries: seq<ChunkQuery>, sized: View, now: View, slots: seq<u16>,
                 done: seq<seq<f32>>, total: nat)
    requires Columnar(done, dim.Arity(), total) && slots == BaseSlots(dim.Arity())
      && HasColumns(sized, now, slots, done)
    requires SLOT_QUERY_OFFSETS in now.data && now.data[SLOT_QUERY_OFFSETS] == U32(OffsetsOf(queries))
    requires total == TotalSamples(OffsetsOf(queries))
    requires dim.D2? ==> !Readable(now, [SLOT_BASE_Z], 1) && (HasThird(now) <==> HasThird(view))
    ensures Initialised(dim, view, now, RowsOf(done, dim.Arity(), total))
  {
    hide OffsetsOf, RowsOf, HasColumns, Laid;
    ColumnsCarry(sized, now, slots, done, RowsOf(done, dim.Arity(), total));
  }

  /** After encoding and grid initialisation the base buffers carry the batch's points. */
  lemma InitCarriesPoints(ops: Ops, dim: GraphDimension, queries: seq<ChunkQuery>, view: View)
    requires ValidBatch(dim, queries) && Total(queries) < U32_COUNT && Blank(view)
    ensures GridInited(ops, dim, Encoded(dim, queries, view).value).Ok?
    ensures Initialised(dim, view, GridInited(ops, dim, Encoded(dim, queries, view).value).value,
                        BatchPoints(ops, dim, queries))
  {
    hide GridInited, LaidPoints, BatchPoints, Initialised;
    InitLays(ops, dim, queries, view);
    LaidBatch(ops, dim, queries);
  }

  lemma ColumnsCarry(sized: View, now: View, slots: seq<u16>, done: seq<seq<f32>>, points: seq<seq<f32>>)
    requires |done| == |slots| && HasColumns(sized, now, slots, done) && Laid(done, |slots|, points, |points|)
    ensures Carries(now, slots, points)
  {
    forall a | 0 <= a < |slots| ensures CarriesColumn(now, slots[a], points, a) {
      assert now.data[slots[a]] == F32(done[a]);
    }
  }

  lemma InitFrame(dim: GraphDimension, view: View, v: View, sized: View, now: View, slots: seq<u16>,
                  done: seq<seq<f32>>, total: nat)
    requires Blank(view) && slots == BaseSlots(dim.Arity()) && |done| == |slots|
    requires forall s :: s in v.data && s >= 3 ==> s in view.data && v.data[s] == view.data[s]
    requires SLOT_QUERY_OFFSETS in v.data
    requires sized == EnsureAll(v, slots, total) && HasColumns(sized, now, slots, done)
    ensures SLOT_QUERY_OFFSETS in now.data && now.data[SLOT_QUERY_OFFSETS] == v.data[SLOT_QUERY_OFFSETS]
    requires SLOT_BASE_Z in view.data ==> SLOT_BASE_Z in v.data
    ensures dim.D2? ==> !Readable(now, [SLOT_BASE_Z], 1) && (HasThird(now) <==> HasThird(view))
  {
    hide EnsureAll;
    EnsureAllAt(v, slots, total);
    assert SLOT_BASE_Z in [SLOT_BASE_Z];
    assert SLOT_BASE_Z in sized.data.Keys ==> dim.D3? || SLOT_BASE_Z in v.data;
    assert SLOT_QUERY_OFFSETS in sized.data.Keys;
  }

  /**
   * After encoding and grid initialisation of a cleared packet, cell (x, y, z) of query k has its x coordinate in
   * buffer 10, its y coordinate in buffer 11 and, in a 3D batch, its z coordinate in buffer 12, behind the samples
   * of the queries before it.
   */
  lemma BaseCells(
    ops: Ops, dim: GraphDimension, queries: seq<ChunkQuery>, view: View, k: nat, x: nat, y: nat, z: nat, i: nat)
    requires ValidBatch(dim, queries) && Total(queries) < U32_COUNT && Blank(view) && k < |queries|
    requires CellOf(queries[k], x, y, z, i)
    ensures GridInited(ops, dim, Encoded(dim, queries, view).value).Ok?
    ensures var now, q := GridInited(ops, dim, Encoded(dim, queries, view).value).value, queries[k];
      var at := Start(queries, k) + i;
      && HoldsAt(now, 10, at, ops.add(q.origin[0], ops.mul(ops.ofIndex(x), q.step[0])))
      && HoldsAt(now, 11, at, ops.add(q.origin[1], ops.mul(ops.ofIndex(y), q.step[1])))
      && (dim.D3? ==> HoldsAt(now, 12, at, ops.add(q.origin[2], ops.mul(ops.ofIndex(z), q.step[2]))))
  {
    hide GridInited, QueryPoints, Start, Total, Encoded, Blank, HoldsAt, CellOf;
    assert queries[k].Dim() == dim;
    CellPoint(ops, queries[k], x, y, z, i);
    SampleHeld(ops, dim, queries, view, k, i);
  }

  /** Sample i of query k, with all its coordinates, behind the samples of the queries before it. */
  lemma SampleHeld(ops: Ops, dim: GraphDimension, queries: seq<ChunkQuery>, view: View, k: nat, i: nat)
    requires ValidBatch(dim, queries) && Total(queries) < U32_COUNT && Blank(view) && k < |queries|
    requires i < |QueryPoints(ops, queries[k])|
    ensures GridInited(ops, dim, Encoded(dim, queries, view).value).Ok?
    ensures var now := GridInited(ops, dim, Encoded(dim, queries, view).value).value;
      var p := QueryPoints(ops, queries[k])[i];
      && HoldsAt(now, 10, Start(queries, k) + i, p[0]) && HoldsAt(now, 11, Start(queries, k) + i, p[1])
      && (dim.D3? ==> HoldsAt(now, 12, Start(queries, k) + i, p[2]))
  {
    hide GridInited, QueryPoints, BatchPoints, Start, Total, Blank;
    InitCarriesPoints(ops, dim, queries, view);
    BatchPointsSplit(ops, dim, queries, k);
    var now := GridInited(ops, dim, Encoded(dim, queries, view).value).value;
    var points := BatchPoints(ops, dim, queries);
    var own := points[Start(queries, k)..Start(queries, k + 1)];
    assert own[i] == points[Start(queries, k) + i];
    var slots := BaseSlots(dim.Arity());
    assert CarriesColumn(now, slots[0], points, 0) && CarriesColumn(now, slots[1], points, 1);
    assert dim.D3? ==> CarriesColumn(now, slots[2], points, 2);
  }

  predicate HoldsAt(view: View, slot: u16, at: nat, value: f32) {
    slot in view.data && view.data[slot].F32? && at < |view.data[slot].f32s|
    && view.data[slot].f32s[at] == value
  }
}
