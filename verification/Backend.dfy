/** The CPU backend and inline execution: prepare a plan, then encode, run its stages and decode. */
module Backend {
  import opened Common
  import opened Model
  import opened Semantics
  import opened Pipeline
  import opened Packet
  import opened Grid
  import opened Runtime
  import Codec
  import Kernels

  // ---------------------------------------------------------------- prepare

  /** Factory lookup and payload decoding; unregistered kinds are rejected. */
  function PrepareKernel(spec: KernelSpec): Result<Kernel> {
    match TagOf(spec.kind)
    case None => Err(BackendRejectedKernel(spec.kind))
    case Some(tag) => Codec.ParseKernel(tag, spec.payload).ToResult()
  }

  function PrepareStage(kernels: seq<KernelSpec>): Result<seq<Kernel>> {
    if kernels == [] then Ok([])
    else
      var before :- PrepareStage(kernels[..|kernels| - 1]);
      var kernel :- PrepareKernel(kernels[|kernels| - 1]);
      Ok(before + [kernel])
  }

  function Prepared(stages: seq<StageSpec>): (r: Result<seq<seq<Kernel>>>)
    ensures r.Ok? ==> |r.value| == |stages|
  {
    if stages == [] then Ok([])
    else
      var before :- Prepared(stages[..|stages| - 1]);
      var stage :- PrepareStage(stages[|stages| - 1].kernels);
      Ok(before + [stage])
  }

  method PrepareOne(spec: KernelSpec) returns (r: Result<Kernel>)
    ensures r == PrepareKernel(spec)
  {
    hide Codec.ParseWarp, Codec.ParseSample, Codec.ParseCombine;
    var tag := TagOf(spec.kind);
    if tag.None? {
      return Err(BackendRejectedKernel(spec.kind));
    }
    var reader := new Codec.PayloadReader(spec.payload);
    var parsed;
    match tag.value {
      case InitGrid2d => parsed := Codec.Parsed(GridInit(D2));
      case InitGrid3d => parsed := Codec.Parsed(GridInit(D3));
      case Warp2d => parsed := reader.DecodeWarp(2);
      case Warp3d => parsed := reader.DecodeWarp(3);
      case Sample2d => parsed := reader.DecodeSample(2);
      case Sample3d => parsed := reader.DecodeSample(3);
      case CombineTag => parsed := reader.DecodeCombine();
    }
    r := parsed.ToResult();
  }

  lemma {:induction false} StagePrefixFails(kernels: seq<KernelSpec>, i: nat)
    requires i <= |kernels| && PrepareStage(kernels[..i]).Err?
    ensures PrepareStage(kernels) == PrepareStage(kernels[..i])
    decreases |kernels|
  {
    hide PrepareKernel;
    if i < |kernels| {
      assert kernels[..|kernels| - 1][..i] == kernels[..i];
      StagePrefixFails(kernels[..|kernels| - 1], i);
    } else {
      assert kernels[..i] == kernels;
    }
  }

  lemma {:induction false} PreparePrefixFails(stages: seq<StageSpec>, i: nat)
    requires i <= |stages| && Prepared(stages[..i]).Err?
    ensures Prepared(stages) == Prepared(stages[..i])
    decreases |stages|
  {
    hide PrepareStage;
    if i < |stages| {
      assert stages[..|stages| - 1][..i] == stages[..i];
      PreparePrefixFails(stages[..|stages| - 1], i);
    } else {
      assert stages[..i] == stages;
    }
  }

  method Prepare<M>(plan: CompiledPlan<M>) returns (r: Result<seq<seq<Kernel>>>)
    ensures r == Prepared(plan.stages)
  {
    hide PrepareKernel;
    var specs := plan.stages;
    var stages: seq<seq<Kernel>> := [];
    for s := 0 to |specs|
      invariant Prepared(specs[..s]) == Ok(stages)
    {
      assert specs[..s + 1][..s] == specs[..s];
      var kernels: seq<Kernel> := [];
      var stage := specs[s].kernels;
      for k := 0 to |stage|
        invariant PrepareStage(stage[..k]) == Ok(kernels)
      {
        assert stage[..k + 1][..k] == stage[..k];
        var kernel := PrepareOne(stage[k]);
        if kernel.Err? {
          StagePrefixFails(stage, k + 1);
          PreparePrefixFails(specs, s + 1);
          return Err(kernel.error);
        }
        kernels := kernels + [kernel.value];
      }
      assert stage[..|stage|] == stage;
      stages := stages + [kernels];
    }
    assert specs[..|specs|] == specs;
    r := Ok(stages);
  }

  // ---------------------------------------------------------------- running stages

  ghost function RunStages(ops: Ops, stages: seq<seq<Kernel>>, view: View): Result<View> {
    if stages == [] then Ok(view)
    else
      var before :- RunStages(ops, stages[..|stages| - 1], view);
      RunStage(ops, stages[|stages| - 1], before)
  }

  ghost predicate Shaped(kernels: seq<Kernel>) {
    forall k :: 0 <= k < |kernels| ==> kernels[k].Shaped()
  }

  lemma {:induction false} KernelPrefixFails(ops: Ops, kernels: seq<Kernel>, view: View, i: nat)
    requires i <= |kernels| && RunStage(ops, kernels[..i], view).Err?
    ensures RunStage(ops, kernels, view) == RunStage(ops, kernels[..i], view)
    decreases |kernels|
  {
    hide RunKernel;
    if i < |kernels| {
      assert kernels[..|kernels| - 1][..i] == kernels[..i];
      KernelPrefixFails(ops, kernels[..|kernels| - 1], view, i);
    } else {
      assert kernels[..i] == kernels;
    }
  }

  lemma {:induction false} RunPrefixFails(ops: Ops, stages: seq<seq<Kernel>>, view: View, i: nat)
    requires i <= |stages| && RunStages(ops, stages[..i], view).Err?
    ensures RunStages(ops, stages, view) == RunStages(ops, stages[..i], view)
    decreases |stages|
  {
    hide RunStage;
    if i < |stages| {
      assert stages[..|stages| - 1][..i] == stages[..i];
      RunPrefixFails(ops, stages[..|stages| - 1], view, i);
    } else {
      assert stages[..i] == stages;
    }
  }

  ghost predicate FloatStage(kernels: seq<Kernel>) {
    forall k :: 0 <= k < |kernels| ==> FloatKernel(kernels[k])
  }

  /** run_stage: the cancel flag is polled before each kernel. */
  method RunStageOn(ops: Ops, prepared: seq<seq<Kernel>>, index: nat, packet: JobPacket, cancel: CancelFlag)
    returns (r: Result<()>)
    requires packet.Valid() && forall s :: 0 <= s < |prepared| ==> Shaped(prepared[s])
    modifies packet, cancel
    ensures packet.Valid() && cancel.polls >= old(cancel.polls)
    ensures r.Ok? ==> Kernels.Clear(cancel, old(cancel.polls))
    ensures r.Ok? ==> index < |prepared| && cancel.polls >= old(cancel.polls) + |prepared[index]|
    ensures index < |prepared| && FloatStage(prepared[index]) && Kinded(old(packet.Abstract())) ==>
      Kinded(packet.Abstract())
    ensures index >= |prepared| ==> r == Err(Message) && packet.Abstract() == old(packet.Abstract())
    ensures r.Ok? ==>
      index < |prepared| && RunStage(ops, prepared[index], old(packet.Abstract())) == Ok(packet.Abstract())
    ensures r.Err? && index < |prepared| ==>
      || Kernels.Interrupted(r.error, cancel, old(cancel.polls))
      || RunStage(ops, prepared[index], old(packet.Abstract())) == Err(r.error)
  {
    hide RunKernel, Kinded, FloatKernel;
    if index >= |prepared| {
      return Err(Message);
    }
    var kernels := prepared[index];
    ghost var start := packet.Abstract();
    for k := 0 to |kernels|
      invariant packet.Valid() && cancel.polls >= old(cancel.polls) + k
      invariant Kernels.Clear(cancel, old(cancel.polls))
      invariant FloatStage(kernels) && Kinded(start) ==> Kinded(packet.Abstract())
      invariant RunStage(ops, kernels[..k], start) == Ok(packet.Abstract())
    {
      assert kernels[..k + 1][..k] == kernels[..k];
      var stop := cancel.IsCancelled();
      if stop {
        return Err(Cancelled);
      }
      ghost var since := cancel.polls;
      r := Kernels.Run(ops, kernels[k], packet, cancel);
      if r.Err? {
        if !Kernels.Interrupted(r.error, cancel, since) {
          KernelPrefixFails(ops, kernels, start, k + 1);
        }
        return r;
      }
    }
    assert kernels[..|kernels|] == kernels;
    return Ok(());
  }

  // ---------------------------------------------------------------- the debug-build packet check

  ghost predicate PacketValid(buffers: seq<BufferSpec>, view: View) {
    forall s :: s in view.data ==> BufferConforms(buffers, view.queryCount, s, view.data[s])
  }

  /** validate_packet walks the packet's buffers, leftovers included. */
  method ValidatePacket(buffers: seq<BufferSpec>, packet: JobPacket) returns (r: Result<()>)
    requires packet.Valid()
    ensures r.Ok? <==> PacketValid(buffers, packet.Abstract())
    ensures r.Err? ==> r.error != Cancelled
  {
    ghost var view := packet.Abstract();
    for i := 0 to |packet.buffers|
      invariant forall j :: 0 <= j < i ==>
        BufferConforms(buffers, packet.queryCount, packet.buffers[j].slot, packet.buffers[j].data)
    {
      var b := packet.buffers[i];
      assert packet.SlotIndex(b.slot) == Some(i);
      assert b.slot in view.data && view.data[b.slot] == b.data;
      match SpecOf(buffers, b.slot) {
        case None =>
          if b.data.Len() != 0 {
            return Err(InvalidSpec);
          }
        case Some(spec) =>
          if spec.kind != b.data.Kind() {
            return Err(InvalidBufferType(b.slot, spec.kind));
          }
          if !LenConforms(spec, packet.queryCount, b.data.Len()) {
            return Err(InvalidSpec);
          }
      }
    }
    forall s | s in view.data ensures BufferConforms(buffers, view.queryCount, s, view.data[s]) {
      assert packet.SlotIndex(s).Some?;
    }
    return Ok(());
  }

  // ---------------------------------------------------------------- encode and decode on the packet

  function PutAt(s: seq<u32>, at: nat, vals: seq<u32>): (r: seq<u32>)
    requires at + |vals| <= |s|
    ensures |r| == |s|
  {
    s[..at] + vals + s[at + |vals|..]
  }

  lemma PutNext(s: seq<u32>, done: seq<u32>, vals: seq<u32>)
    requires |done| + |vals| <= |s| && s[..|done|] == done
    ensures PutAt(s, |done|, vals)[..|done| + |vals|] == done + vals
  {}

  /** The buffers after the first i queries. */
  ghost predicate Written(
    dim: GraphDimension, queries: seq<ChunkQuery>, i: nat, meta: seq<u32>, floats: seq<f32>, offsets: seq<u32>,
    cursor: nat)
    requires forall q :: 0 <= q < |queries| ==> queries[q].Valid()
  {
    && i <= |queries|
    && |meta| == 3 * |queries| && |floats| == 6 * |queries| && |offsets| == |queries| + 1
    && ValidBatch(dim, queries[..i]) && cursor == Total(queries[..i])
    && meta[..3 * i] == MetaOf(queries[..i])
    && floats[..6 * i] == FloatsOf(queries[..i])
    && offsets[..i + 1] == OffsetsOf(queries[..i])
  }

  function MetaTriple(q: ChunkQuery): seq<u32> {
    [Cast(q.width), Cast(q.height), Cast(q.Depth())]
  }

  lemma WriteQuery(
    dim: GraphDimension, queries: seq<ChunkQuery>, i: nat, meta: seq<u32>, floats: seq<f32>, offsets: seq<u32>,
    cursor: nat)
    requires forall q :: 0 <= q < |queries| ==> queries[q].Valid()
    requires Written(dim, queries, i, meta, floats, offsets, cursor) && i < |queries| && queries[i].Dim() == dim
    ensures var q := queries[i];
      Written(dim, queries, i + 1, PutAt(meta, 3 * i, MetaTriple(q)), PutAt(floats, 6 * i, FloatsOfQuery(q)),
              offsets[i + 1 := Cast(cursor + q.Samples())], cursor + q.Samples())
  {
    hide FloatsOfQuery, MetaTriple, PutAt, Cast;
    var q := queries[i];
    assert queries[..i + 1][..i] == queries[..i];
    assert |MetaTriple(q)| == 3 by { TripleLength(q); }
    PutNext(meta, MetaOf(queries[..i]), MetaTriple(q));
    PutNext(floats, FloatsOf(queries[..i]), FloatsOfQuery(q));
    assert offsets[i + 1 := Cast(cursor + q.Samples())][..i + 2] == offsets[..i + 1] + [Cast(cursor + q.Samples())];
    MetaSnoc(queries, i);
    FloatsSnoc(queries, i);
    OffsetsSnoc(queries, i);
  }

  lemma TripleLength(q: ChunkQuery)
    ensures |MetaTriple(q)| == 3
  {}

  lemma MetaSnoc(queries: seq<ChunkQuery>, i: nat)
    requires i < |queries|
    ensures MetaOf(queries[..i + 1]) == MetaOf(queries[..i]) + MetaTriple(queries[i])
  {
    assert queries[..i + 1][..i] == queries[..i];
  }

  lemma FloatsSnoc(queries: seq<ChunkQuery>, i: nat)
    requires i < |queries| && forall q :: 0 <= q < |queries| ==> queries[q].Valid()
    ensures FloatsOf(queries[..i + 1]) == FloatsOf(queries[..i]) + FloatsOfQuery(queries[i])
  {
    assert queries[..i + 1][..i] == queries[..i];
  }

  lemma OffsetsSnoc(queries: seq<ChunkQuery>, i: nat)
    requires i < |queries|
    ensures Total(queries[..i + 1]) == Total(queries[..i]) + queries[i].Samples()
    ensures OffsetsOf(queries[..i + 1]) == OffsetsOf(queries[..i]) + [Cast(Total(queries[..i + 1]))]
  {
    assert queries[..i + 1][..i] == queries[..i];
  }

  /** The loop of encode_batch, over the three borrowed buffers; None when a query has the wrong shape. */
  method WriteQueries(dim: GraphDimension, queries: seq<ChunkQuery>, meta0: seq<u32>, floats0: seq<f32>,
                      offsets0: seq<u32>)
    returns (ok: bool, meta: seq<u32>, floats: seq<f32>, offsets: seq<u32>)
    requires forall q :: 0 <= q < |queries| ==> queries[q].Valid()
    requires |meta0| == 3 * |queries| && |floats0| == 6 * |queries| && |offsets0| == |queries| + 1
    ensures ok <==> ValidBatch(dim, queries)
    ensures ok ==> meta == MetaOf(queries) && floats == FloatsOf(queries) && offsets == OffsetsOf(queries)
  {
    hide FloatsOfQuery, Written, PutAt, Cast;
    var cursor: nat := 0;
    meta, floats, offsets := meta0, floats0, offsets0[0 := 0];
    assert Written(dim, queries, 0, meta, floats, offsets, cursor) by {
      NothingWritten(dim, queries, meta, floats, offsets);
    }
    for i := 0 to |queries|
      invariant Written(dim, queries, i, meta, floats, offsets, cursor)
      invariant |meta| == 3 * |queries| && |floats| == 6 * |queries| && |offsets| == |queries| + 1
    {
      var query := queries[i];
      if query.Dim() != dim {
        return false, meta, floats, offsets;
      }
      WriteQuery(dim, queries, i, meta, floats, offsets, cursor);
      TripleLength(query);
      meta := PutAt(meta, 3 * i, MetaTriple(query));
      floats := PutAt(floats, 6 * i, FloatsOfQuery(query));
      cursor := cursor + query.Samples();
      offsets := offsets[i + 1 := Cast(cursor)];
    }
    AllWritten(dim, queries, meta, floats, offsets, cursor);
    ok := true;
  }

  lemma NothingWritten(dim: GraphDimension, queries: seq<ChunkQuery>, meta: seq<u32>, floats: seq<f32>,
                       offsets: seq<u32>)
    requires forall q :: 0 <= q < |queries| ==> queries[q].Valid()
    requires |meta| == 3 * |queries| && |floats| == 6 * |queries| && |offsets| == |queries| + 1 && offsets[0] == 0
    ensures Written(dim, queries, 0, meta, floats, offsets, 0)
  {
    assert queries[..0] == [];
  }

  lemma AllWritten(
    dim: GraphDimension, queries: seq<ChunkQuery>, meta: seq<u32>, floats: seq<f32>, offsets: seq<u32>, cursor: nat)
    requires forall q :: 0 <= q < |queries| ==> queries[q].Valid()
    requires Written(dim, queries, |queries|, meta, floats, offsets, cursor)
    ensures ValidBatch(dim, queries)
    ensures meta == MetaOf(queries) && floats == FloatsOf(queries) && offsets == OffsetsOf(queries)
  {
    hide MetaOf, FloatsOf, OffsetsOf, Total, ValidBatch;
    var n := |queries|;
    assert queries[..n] == queries && meta[..3 * n] == meta && floats[..6 * n] == floats && offsets[..n + 1] == offsets;
  }

  /** encode_batch: three buffers sized and filled, whatever the packet held before. */
  method EncodeBatch(dim: GraphDimension, queries: seq<ChunkQuery>, packet: JobPacket) returns (r: Result<()>)
    requires packet.Valid() && forall q :: 0 <= q < |queries| ==> queries[q].Valid()
    modifies packet
    ensures packet.Valid()
    ensures Kinded(old(packet.Abstract())) ==> Kinded(packet.Abstract())
    ensures r.Ok? <==> Encoded(dim, queries, old(packet.Abstract())).Ok?
    ensures r.Ok? ==> Encoded(dim, queries, old(packet.Abstract())) == Ok(packet.Abstract())
    ensures r.Err? ==> r.error == Panicked && Encoded(dim, queries, old(packet.Abstract())) == Err(Panicked)
  {
    hide MetaOf, FloatsOf, OffsetsOf, JobPacket.Abstract, JobPacket.Valid, JobPacket.SlotIndex, Kinded, ValidBatch;
    ghost var view := packet.Abstract();
    var n := |queries|;
    packet.SetQueryCount(n);
    var m := EnsureQueryBuffers(n, packet);
    QueryKinds(n, view, packet.Abstract());
    var f := packet.SlotIndex(SLOT_QUERY_F32).value;
    var o := packet.SlotIndex(SLOT_QUERY_OFFSETS).value;
    var ok, meta, floats, offsets :=
      WriteQueries(dim, queries, packet.buffers[m].data.u32s, packet.buffers[f].data.f32s, packet.buffers[o].data.u32s);
    if !ok {
      return Err(Panicked);
    }
    StoreQueryBuffers(packet, m, f, o, meta, floats, offsets, view);
    return Ok(());
  }

  /** The three query buffers receive their contents. */
  method StoreQueryBuffers(packet: JobPacket, m: nat, f: nat, o: nat, meta: seq<u32>, floats: seq<f32>,
                           offsets: seq<u32>,
                           ghost view: View)
    requires packet.Valid() && packet.isDirty
    requires packet.SlotIndex(SLOT_QUERY_META) == Some(m) && packet.SlotIndex(SLOT_QUERY_F32) == Some(f)
    requires packet.SlotIndex(SLOT_QUERY_OFFSETS) == Some(o)
    requires packet.Abstract().data.Keys == view.data.Keys + {SLOT_QUERY_META, SLOT_QUERY_F32, SLOT_QUERY_OFFSETS}
    requires forall s :: s in view.data && s > 2 ==> packet.Abstract().data[s] == view.data[s]
    modifies packet`buffers
    ensures packet.Valid() && (Kinded(view) ==> Kinded(packet.Abstract()))
    ensures packet.Abstract().queryCount == old(packet.Abstract()).queryCount
    ensures packet.Abstract().data
         == view.data[SLOT_QUERY_META := U32(meta)][SLOT_QUERY_F32 := F32(floats)][SLOT_QUERY_OFFSETS := U32(offsets)]
  {
    hide JobPacket.Abstract, JobPacket.Valid, JobPacket.SlotIndex, Kinded;
    packet.Store(m, U32(meta));
    packet.Store(f, F32(floats));
    packet.Store(o, U32(offsets));
    EncodedOverwrites(packet.Abstract(), view, meta, floats, offsets);
    EncodedKinds(view, packet.Abstract());
  }

  method EnsureQueryBuffers(n: nat, packet: JobPacket) returns (m: nat)
    requires packet.Valid()
    modifies packet
    ensures packet.Valid() && packet.isDirty
    ensures packet.SlotIndex(SLOT_QUERY_META) == Some(m)
    ensures packet.SlotIndex(SLOT_QUERY_F32).Some? && packet.SlotIndex(SLOT_QUERY_OFFSETS).Some?
    ensures var now := packet.Abstract();
      && QueryBuffers(n, now) && now.queryCount == old(packet.Abstract()).queryCount
      && now.data.Keys == old(packet.Abstract()).data.Keys + {SLOT_QUERY_META, SLOT_QUERY_F32, SLOT_QUERY_OFFSETS}
      && forall s :: s in old(packet.Abstract()).data && s > 2 ==> now.data[s] == old(packet.Abstract()).data[s]
  {
    hide EnsuredData, JobPacket.Valid, JobPacket.Abstract, JobPacket.SlotIndex;
    var i := packet.EnsureBuffer(SLOT_QUERY_META, KindU32, n * 3);
    i := packet.EnsureBuffer(SLOT_QUERY_F32, KindF32, n * 6);
    i := packet.EnsureBuffer(SLOT_QUERY_OFFSETS, KindU32, n + 1);
    m := packet.SlotIndex(SLOT_QUERY_META).value;
  }

  ghost predicate QueryBuffers(n: nat, view: View) {
    && {SLOT_QUERY_META, SLOT_QUERY_F32, SLOT_QUERY_OFFSETS} <= view.data.Keys
    && view.data[SLOT_QUERY_META].U32? && view.data[SLOT_QUERY_META].Len() == 3 * n
    && view.data[SLOT_QUERY_F32].F32? && view.data[SLOT_QUERY_F32].Len() == 6 * n
    && view.data[SLOT_QUERY_OFFSETS].U32? && view.data[SLOT_QUERY_OFFSETS].Len() == n + 1
  }

  lemma QueryKinds(n: nat, view: View, now: View)
    requires QueryBuffers(n, now)
    requires now.data.Keys == view.data.Keys + {SLOT_QUERY_META, SLOT_QUERY_F32, SLOT_QUERY_OFFSETS}
    requires forall s :: s in view.data && s > 2 ==> now.data[s] == view.data[s]
    ensures Kinded(view) ==> Kinded(now)
  {}

  lemma EncodedKinds(view: View, now: View)
    requires now.data.Keys == view.data.Keys + {SLOT_QUERY_META, SLOT_QUERY_F32, SLOT_QUERY_OFFSETS}
    requires now.data[SLOT_QUERY_META].U32? && now.data[SLOT_QUERY_F32].F32? && now.data[SLOT_QUERY_OFFSETS].U32?
    requires forall s :: s in view.data && s > 2 ==> now.data[s] == view.data[s]
    ensures Kinded(view) ==> Kinded(now)
  {}

  lemma EncodedOverwrites(now: View, view: View, meta: seq<u32>, floats: seq<f32>, offsets: seq<u32>)
    requires now.data.Keys == view.data.Keys + {SLOT_QUERY_META, SLOT_QUERY_F32, SLOT_QUERY_OFFSETS}
    requires now.data[SLOT_QUERY_META] == U32(meta) && now.data[SLOT_QUERY_F32] == F32(floats)
    requires now.data[SLOT_QUERY_OFFSETS] == U32(offsets)
    requires forall s :: s in view.data && s > 2 ==> now.data[s] == view.data[s]
    ensures now.data
      == view.data[SLOT_QUERY_META := U32(meta)][SLOT_QUERY_F32 := F32(floats)][SLOT_QUERY_OFFSETS := U32(offsets)]
  {}
}
