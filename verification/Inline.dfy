/** Inline execution: one batch or one query on the caller's packet. */
module Inline {
  import opened Common
  import opened Model
  import opened Semantics
  import opened Pipeline
  import opened Packet
  import opened Grid
  import opened Runtime
  import opened Compile
  import opened Backend

  /** checkout_packet: statics are reloaded after clearing. */
  function Loaded(view: View, statics: seq<StaticBuffer>): View {
    if statics == [] then view
    else
      var v := Loaded(view, statics[..|statics| - 1]);
      v.(data := v.data[statics[|statics| - 1].slot := statics[|statics| - 1].data])
  }

  /** After loading, a static's slot holds its data, unless a later static of the same slot replaced it. */
  lemma {:induction false} StaticLoaded(view: View, statics: seq<StaticBuffer>, i: nat)
    requires i < |statics| && forall j :: i < j < |statics| ==> statics[j].slot != statics[i].slot
    ensures var now := Loaded(view, statics).data; statics[i].slot in now && now[statics[i].slot] == statics[i].data
    decreases |statics|
  {
    if i < |statics| - 1 {
      StaticLoaded(view, statics[..|statics| - 1], i);
    }
  }

  lemma {:induction false} OthersLoaded(view: View, statics: seq<StaticBuffer>, s: u16)
    requires forall i :: 0 <= i < |statics| ==> statics[i].slot != s
    ensures s in Loaded(view, statics).data <==> s in view.data
    ensures s in view.data ==> Loaded(view, statics).data[s] == view.data[s]
  {
    if statics != [] {
      OthersLoaded(view, statics[..|statics| - 1], s);
    }
  }

  ghost predicate KindedStatics(statics: seq<StaticBuffer>) {
    forall i :: 0 <= i < |statics| ==> statics[i].data.Kind() == KindAt(statics[i].slot)
  }

  lemma ClearedKinded(view: View)
    requires Kinded(view)
    ensures Kinded(Cleared(view))
  {}

  lemma {:induction false} LoadedKinded(view: View, statics: seq<StaticBuffer>)
    requires Kinded(view) && KindedStatics(statics)
    ensures Kinded(Loaded(view, statics))
  {
    if statics != [] {
      LoadedKinded(view, statics[..|statics| - 1]);
    }
  }

  method Checkout(statics: seq<StaticBuffer>, packet: JobPacket)
    requires packet.Valid()
    modifies packet
    ensures packet.Valid() && packet.Abstract() == Loaded(Cleared(old(packet.Abstract())), statics)
    ensures KindedStatics(statics) && Kinded(old(packet.Abstract())) ==> Kinded(packet.Abstract())
  {
    hide Kinded;
    if KindedStatics(statics) && Kinded(packet.Abstract()) {
      ClearedKinded(packet.Abstract());
      LoadedKinded(Cleared(packet.Abstract()), statics);
    }
    packet.ClearForReuse();
    ghost var start := packet.Abstract();
    for i := 0 to |statics|
      invariant packet.Valid() && packet.Abstract() == Loaded(start, statics[..i])
    {
      assert statics[..i + 1][..i] == statics[..i];
      packet.LoadStaticBuffer(statics[i].slot, statics[i].data);
    }
    assert statics[..|statics|] == statics;
  }

  /** encode_one. */
  function EncodedOne(dim: GraphDimension, q: ChunkQuery, view: View): Result<View>
    requires q.Valid()
  {
    if q.Dim() != dim then Err(Panicked)
    else
      Ok(View(1, view.data[SLOT_QUERY_META := U32(MetaTriple(q))]
                          [SLOT_QUERY_F32 := F32(FloatsOfQuery(q))]
                          [SLOT_QUERY_OFFSETS := U32([0, Cast(q.Samples())])]))
  }

  /** decode_one: an unusable range is an error, not a panic. */
  function DecodedOne(finalSlot: u16, view: View): Result<seq<f32>> {
    var values :- SliceOf(view, finalSlot, KindF32);
    var offsets :- SliceOf(view, SLOT_QUERY_OFFSETS, KindU32);
    if offsets.Len() < 2 then Err(Message)
    else
      var start, end := offsets.u32s[0], offsets.u32s[1];
      if values.Len() < end || values.Len() < start || start > end then Err(Message)
      else Ok(values.f32s[start..end])
  }

  method EncodeOne(dim: GraphDimension, q: ChunkQuery, packet: JobPacket) returns (r: Result<()>)
    requires packet.Valid() && q.Valid()
    modifies packet
    ensures packet.Valid()
    ensures Kinded(old(packet.Abstract())) ==> Kinded(packet.Abstract())
    ensures r.Ok? <==> EncodedOne(dim, q, old(packet.Abstract())).Ok?
    ensures r.Ok? ==> EncodedOne(dim, q, old(packet.Abstract())) == Ok(packet.Abstract())
    ensures r.Err? ==> r.error == Panicked
  {
    hide JobPacket.Abstract, JobPacket.Valid, JobPacket.SlotIndex, Kinded, Cast, MetaTriple;
    ghost var view := packet.Abstract();
    packet.SetQueryCount(1);
    var m := EnsureQueryBuffers(1, packet);
    QueryKinds(1, view, packet.Abstract());
    var f := packet.SlotIndex(SLOT_QUERY_F32).value;
    var o := packet.SlotIndex(SLOT_QUERY_OFFSETS).value;
    if q.Dim() != dim {
      return Err(Panicked);
    }
    StoreQueryBuffers(packet, m, f, o, MetaTriple(q), FloatsOfQuery(q), [0, Cast(q.Samples())], view);
    return Ok(());
  }

  method DecodeBatch(finalSlot: u16, packet: JobPacket) returns (r: Result<seq<seq<f32>>>)
    requires packet.Valid()
    ensures r == Decoded(finalSlot, packet.Abstract())
  {
    var values :- packet.Slice(finalSlot, KindF32);
    var offsets :- packet.Slice(SLOT_QUERY_OFFSETS, KindU32);
    var pieces: seq<seq<f32>> := [];
    var start := 0;
    var i := 1;
    while i < |offsets.u32s|
      invariant offsets.u32s != [] ==> 1 <= i <= |offsets.u32s|
      invariant offsets.u32s == [] ==> i == 1
      invariant start == if i == 1 then 0 else offsets.u32s[i - 1]
      invariant offsets.u32s != [] ==> Cut(values.f32s, offsets.u32s, i - 1) == Ok(pieces)
      invariant offsets.u32s == [] ==> pieces == []
    {
      var end := offsets.u32s[i];
      if !(start <= end <= |values.f32s|) {
        CutFails(values.f32s, offsets.u32s, i, |offsets.u32s| - 1);
        return Err(Panicked);
      }
      pieces := pieces + [values.f32s[start..end]];
      start := end;
      i := i + 1;
    }
    return Ok(pieces);
  }

  lemma {:induction false} CutFails(values: seq<f32>, offsets: seq<u32>, i: nat, n: nat)
    requires i <= n < |offsets| && Cut(values, offsets, i).Err?
    ensures Cut(values, offsets, n) == Cut(values, offsets, i)
  {
    if i < n {
      CutFails(values, offsets, i, n - 1);
    }
  }

  method DecodeOne(finalSlot: u16, packet: JobPacket) returns (r: Result<seq<f32>>)
    requires packet.Valid()
    ensures r == DecodedOne(finalSlot, packet.Abstract())
  {
    var values :- packet.Slice(finalSlot, KindF32);
    var offsets :- packet.Slice(SLOT_QUERY_OFFSETS, KindU32);
    if offsets.Len() < 2 {
      return Err(Message);
    }
    var start, end := offsets.u32s[0], offsets.u32s[1];
    if values.Len() < end || values.Len() < start || start > end {
      return Err(Message);
    }
    return Ok(values.f32s[start..end]);
  }

  // ---------------------------------------------------------------- execution

  /**
   * The value inline execution returns: a function of the version, the queries and nothing else of interest in
   * the packet.
   */
  ghost function Executed(ops: Ops, plan: Plan, stages: seq<seq<Kernel>>, queries: seq<ChunkQuery>,
                          view: View): Result<seq<seq<f32>>>
    requires forall q :: 0 <= q < |queries| ==> queries[q].Valid()
  {
    var encoded :- Encoded(plan.meta.dimension, queries, Loaded(Cleared(view), plan.statics));
    var done :- RunStages(ops, stages, encoded);
    Decoded(plan.meta.finalSlot, done)
  }

  ghost function ExecutedOne(ops: Ops, plan: Plan, stages: seq<seq<Kernel>>, query: ChunkQuery,
                             view: View): Result<seq<f32>>
    requires query.Valid()
  {
    var encoded :- EncodedOne(plan.meta.dimension, query, Loaded(Cleared(view), plan.statics));
    var done :- RunStages(ops, stages, encoded);
    DecodedOne(plan.meta.finalSlot, done)
  }

  /** In debug builds the packet is validated around every stage; in release builds it is not. */
  method Check(debug: bool, plan: Plan, packet: JobPacket) returns (r: Result<()>)
    requires packet.Valid()
    ensures r.Err? ==> debug && r.error != Cancelled && !PacketValid(plan.buffers, packet.Abstract())
  {
    if debug {
      r := ValidatePacket(plan.buffers, packet);
    } else {
      r := Ok(());
    }
  }

  /** Some point of the run leaves a packet the debug check refuses. */
  ghost predicate Refused(ops: Ops, plan: Plan, stages: seq<seq<Kernel>>, encoded: View) {
    exists n: nat :: n <= |stages| && RunStages(ops, stages[..n], encoded).Ok?
      && !PacketValid(plan.buffers, RunStages(ops, stages[..n], encoded).value)
  }

  /** A plan that keeps every slot's kind. */
  ghost predicate KindedPlan(plan: Plan, stages: seq<seq<Kernel>>) {
    KindedStatics(plan.statics) && forall s :: 0 <= s < |stages| ==> FloatStage(stages[s])
  }

  method RunAllStages(ops: Ops, debug: bool, plan: Plan, stages: seq<seq<Kernel>>, packet: JobPacket,
                      cancel: CancelFlag)
    returns (r: Result<()>)
    requires packet.Valid() && |stages| == |plan.stages| && forall s :: 0 <= s < |stages| ==> Shaped(stages[s])
    modifies packet, cancel
    ensures packet.Valid() && cancel.polls >= old(cancel.polls)
    ensures r.Ok? ==> Kernels.Clear(cancel, old(cancel.polls))
    ensures KindedPlan(plan, stages) && Kinded(old(packet.Abstract())) ==> Kinded(packet.Abstract())
    ensures r.Ok? ==> RunStages(ops, stages, old(packet.Abstract())) == Ok(packet.Abstract())
    ensures r.Ok? ==> cancel.polls >= old(cancel.polls) + |stages|
    ensures r.Err? ==>
      || Kernels.Interrupted(r.error, cancel, old(cancel.polls))
      || RunStages(ops, stages, old(packet.Abstract())) == Err(r.error)
      || (debug && Refused(ops, plan, stages, old(packet.Abstract())))
  {
    hide RunStage, PacketValid, Kinded, FloatStage;
    ghost var start := packet.Abstract();
    assert stages[..0] == [];
    r := Check(debug, plan, packet);
    if r.Err? {
      assert RunStages(ops, stages[..0], start) == Ok(packet.Abstract());
      return r;
    }
    for s := 0 to |plan.stages|
      invariant packet.Valid() && cancel.polls >= old(cancel.polls) + s
      invariant Kernels.Clear(cancel, old(cancel.polls))
      invariant KindedPlan(plan, stages) && Kinded(start) ==> Kinded(packet.Abstract())
      invariant RunStages(ops, stages[..s], start) == Ok(packet.Abstract())
    {
      assert stages[..s + 1][..s] == stages[..s];
      var stop := cancel.IsCancelled();
      if stop {
        return Err(Cancelled);
      }
      ghost var since := cancel.polls;
      r := RunStageOn(ops, stages, s, packet, cancel);
      if r.Err? {
        if !Kernels.Interrupted(r.error, cancel, since) {
          RunPrefixFails(ops, stages, start, s + 1);
        }
        return r;
      }
      r := Check(debug, plan, packet);
      if r.Err? {
        assert RunStages(ops, stages[..s + 1], start) == Ok(packet.Abstract());
        return r;
      }
    }
    assert stages[..|stages|] == stages;
    return Ok(());
  }

  /** execute_inline. */
  method ExecuteInline(ops: Ops, debug: bool, plan: Plan, stages: seq<seq<Kernel>>, queries: seq<ChunkQuery>,
                       packet: JobPacket, cancel: CancelFlag) returns (r: Result<seq<seq<f32>>>)
    requires packet.Valid() && |stages| == |plan.stages| && forall s :: 0 <= s < |stages| ==> Shaped(stages[s])
    requires forall q :: 0 <= q < |queries| ==> queries[q].Valid()
    modifies packet, cancel
    ensures packet.Valid() && cancel.polls >= old(cancel.polls)
    ensures r.Ok? ==> Kernels.Clear(cancel, old(cancel.polls))
    ensures r.Ok? ==> cancel.polls > old(cancel.polls) + |stages|
    ensures KindedPlan(plan, stages) && Kinded(old(packet.Abstract())) ==> Kinded(packet.Abstract())
    ensures r == Executed(ops, plan, stages, queries, old(packet.Abstract()))
      || (r.Err? && Kernels.Interrupted(r.error, cancel, old(cancel.polls)))
      || (r.Err? && debug
          && Encoded(plan.meta.dimension, queries, Loaded(Cleared(old(packet.Abstract())), plan.statics)).Ok?
          && Refused(ops, plan, stages,
                     Encoded(plan.meta.dimension, queries,
                             Loaded(Cleared(old(packet.Abstract())), plan.statics)).value))
  {
    hide Encoded, RunStages, Decoded, Refused, JobPacket.Abstract, JobPacket.Valid, Kinded, FloatStage;
    var stop := cancel.IsCancelled();
    if stop {
      return Err(Cancelled);
    }
    Checkout(plan.statics, packet);
    ghost var loaded := packet.Abstract();
    var encode := EncodeBatch(plan.meta.dimension, queries, packet);
    if encode.Err? {
      EncodeError(plan.meta.dimension, queries, loaded);
      return Err(encode.error);
    }
    ghost var encoded := packet.Abstract();
    var run := RunAllStages(ops, debug, plan, stages, packet, cancel);
    if run.Err? {
      if Kinded(packet.Abstract()) {
        ClearedKinded(packet.Abstract());
      }
      packet.ClearForReuse();
      return Err(run.error);
    }
    var check := Check(debug, plan, packet);
    if check.Err? {
      LastRefused(ops, plan, stages, encoded, packet.Abstract());
      return Err(check.error);
    }
    r := DecodeBatch(plan.meta.finalSlot, packet);
  }

  lemma LastRefused(ops: Ops, plan: Plan, stages: seq<seq<Kernel>>, encoded: View, done: View)
    requires RunStages(ops, stages, encoded) == Ok(done) && !PacketValid(plan.buffers, done)
    ensures Refused(ops, plan, stages, encoded)
  {
    assert stages[..|stages|] == stages;
  }

  lemma EncodeError(dim: GraphDimension, queries: seq<ChunkQuery>, view: View)
    requires forall q :: 0 <= q < |queries| ==> queries[q].Valid()
    ensures Encoded(dim, queries, view).Err? ==> Encoded(dim, queries, view) == Err(Panicked)
  {}

  /** execute_one_inline. */
  method ExecuteOneInline(ops: Ops, debug: bool, plan: Plan, stages: seq<seq<Kernel>>, query: ChunkQuery,
                          packet: JobPacket, cancel: CancelFlag) returns (r: Result<seq<f32>>)
    requires packet.Valid() && |stages| == |plan.stages| && forall s :: 0 <= s < |stages| ==> Shaped(stages[s])
    requires query.Valid()
    modifies packet, cancel
    ensures packet.Valid() && cancel.polls >= old(cancel.polls)
    ensures r.Ok? ==> Kernels.Clear(cancel, old(cancel.polls))
    ensures r.Ok? ==> cancel.polls > old(cancel.polls) + |stages|
    ensures KindedPlan(plan, stages) && Kinded(old(packet.Abstract())) ==> Kinded(packet.Abstract())
    ensures r == ExecutedOne(ops, plan, stages, query, old(packet.Abstract()))
      || (r.Err? && Kernels.Interrupted(r.error, cancel, old(cancel.polls)))
      || (r.Err? && debug
          && EncodedOne(plan.meta.dimension, query, Loaded(Cleared(old(packet.Abstract())), plan.statics)).Ok?
          && Refused(ops, plan, stages,
                     EncodedOne(plan.meta.dimension, query,
                                Loaded(Cleared(old(packet.Abstract())), plan.statics)).value))
  {
    hide RunStages, DecodedOne, Refused, JobPacket.Abstract, JobPacket.Valid, Kinded, FloatStage;
    var stop := cancel.IsCancelled();
    if stop {
      return Err(Cancelled);
    }
    Checkout(plan.statics, packet);
    var encode := EncodeOne(plan.meta.dimension, query, packet);
    if encode.Err? {
      return Err(encode.error);
    }
    ghost var encoded := packet.Abstract();
    var run := RunAllStages(ops, debug, plan, stages, packet, cancel);
    if run.Err? {
      if Kinded(packet.Abstract()) {
        ClearedKinded(packet.Abstract());
      }
      packet.ClearForReuse();
      return Err(run.error);
    }
    var check := Check(debug, plan, packet);
    if check.Err? {
      LastRefused(ops, plan, stages, encoded, packet.Abstract());
      return Err(check.error);
    }
    r := DecodeOne(plan.meta.finalSlot, packet);
  }

  // ---------------------------------------------------------------- errors

  lemma KernelNeverCancelled(ops: Ops, k: Kernel, view: View)
    ensures RunKernel(ops, k, view) != Err(Cancelled)
  {
    hide WithColumns, EnsureAll, Columns, BatchColumns, Ins, Outs, Readable;
    match k
    case GridInit(dim) => EnsureAllAt(view, BaseSlots(dim.Arity()), if SliceOf(view, SLOT_QUERY_OFFSETS, KindU32).Ok?
      then TotalSamples(view.data[SLOT_QUERY_OFFSETS].u32s) else 0);
    case _ =>
      forall v: View, slots: seq<u16>, n: nat | n <= |slots|
        ensures SliceError(v, KindF32, slots, n) != Some(Cancelled)
      {
        SlicesNeverCancelled(v, slots, n);
      }
  }

  lemma {:induction false} SlicesNeverCancelled(view: View, slots: seq<u16>, n: nat)
    requires n <= |slots|
    ensures SliceError(view, KindF32, slots, n) != Some(Cancelled)
  {
    if n > 0 {
      SlicesNeverCancelled(view, slots, n - 1);
    }
  }

  lemma {:induction false} StageNeverCancelled(ops: Ops, kernels: seq<Kernel>, view: View)
    ensures RunStage(ops, kernels, view) != Err(Cancelled)
  {
    hide RunKernel;
    if kernels != [] {
      StageNeverCancelled(ops, kernels[..|kernels| - 1], view);
      if RunStage(ops, kernels[..|kernels| - 1], view).Ok? {
        KernelNeverCancelled(ops, kernels[|kernels| - 1], RunStage(ops, kernels[..|kernels| - 1], view).value);
      }
    }
  }

  lemma {:induction false} RunNeverCancelled(ops: Ops, stages: seq<seq<Kernel>>, view: View)
    ensures RunStages(ops, stages, view) != Err(Cancelled)
  {
    hide RunStage;
    if stages != [] {
      RunNeverCancelled(ops, stages[..|stages| - 1], view);
      if RunStages(ops, stages[..|stages| - 1], view).Ok? {
        StageNeverCancelled(ops, stages[|stages| - 1], RunStages(ops, stages[..|stages| - 1], view).value);
      }
    }
  }

  lemma {:induction false} CutNeverCancelled(values: seq<f32>, offsets: seq<u32>, n: nat)
    requires n < |offsets|
    ensures Cut(values, offsets, n) != Err(Cancelled)
  {
    if n > 0 {
      CutNeverCancelled(values, offsets, n - 1);
    }
  }

  lemma DecodeNeverCancelled(finalSlot: u16, view: View)
    ensures Decoded(finalSlot, view) != Err(Cancelled)
  {
    hide Cut;
    if SLOT_QUERY_OFFSETS in view.data && view.data[SLOT_QUERY_OFFSETS].U32? && finalSlot in view.data
      && view.data[finalSlot].F32? {
      var offsets := view.data[SLOT_QUERY_OFFSETS].u32s;
      if offsets != [] {
        CutNeverCancelled(view.data[finalSlot].f32s, offsets, |offsets| - 1);
      }
    }
  }

  /** An execution nobody cancels does not report a cancellation. */
  lemma NeverCancelled(ops: Ops, plan: Plan, stages: seq<seq<Kernel>>, queries: seq<ChunkQuery>, view: View)
    requires forall q :: 0 <= q < |queries| ==> queries[q].Valid()
    ensures Executed(ops, plan, stages, queries, view) != Err(Cancelled)
  {
    hide RunStages, Decoded;
    var encoded := Encoded(plan.meta.dimension, queries, Loaded(Cleared(view), plan.statics));
    if encoded.Ok? {
      RunNeverCancelled(ops, stages, encoded.value);
      if RunStages(ops, stages, encoded.value).Ok? {
        DecodeNeverCancelled(plan.meta.finalSlot, RunStages(ops, stages, encoded.value).value);
      }
    }
  }

  // ---------------------------------------------------------------- one query is a batch of one

  /** Only the buffers at outs may differ, and they end up as floats. */
  ghost predicate Writes(view: View, now: View, outs: seq<u16>) {
    && now.queryCount == view.queryCount
    && (forall s :: s in outs ==> s in now.data && now.data[s].F32?)
    && (forall s :: s in now.data && s !in outs ==> s in view.data && now.data[s] == view.data[s])
  }

  /** Kernels replace float buffers only: any other buffer present afterwards was there, unchanged. */
  ghost predicate FloatWrites(view: View, now: View) {
    now.queryCount == view.queryCount &&
    forall s :: s in now.data && !now.data[s].F32? ==> s in view.data && view.data[s] == now.data[s]
  }

  lemma ColumnsFloat(view: View, outs: seq<u16>, total: nat, cols: seq<seq<f32>>)
    requires |cols| == |outs| && NoDuplicates(outs)
    ensures Writes(view, WithColumns(EnsureAll(view, outs, total), outs, cols), outs)
  {
    hide EnsureAll, WithColumns;
    var sized := EnsureAll(view, outs, total);
    EnsureAllAt(view, outs, total);
    Kernels.WithColumnsAt(sized, outs, cols);
    assert forall s :: s in sized.data <==> s in sized.data.Keys;
  }

  lemma OutsDistinct(view: View, ins: seq<u16>, outs: seq<u16>)
    requires SliceError(view, KindF32, ins + outs, |ins + outs|).None?
    ensures NoDuplicates(outs)
  {
    var all := ins + outs;
    assert forall i :: 0 <= i < |outs| ==> outs[i] == all[|ins| + i];
  }

  lemma KernelWrites(ops: Ops, k: Kernel, view: View)
    requires RunKernel(ops, k, view).Ok?
    ensures Writes(view, RunKernel(ops, k, view).value, Targets(k))
  {
    hide WithColumns, EnsureAll, Columns, SliceError, Ins, Outs, Writes, BatchColumns;
    match k
    case GridInit(dim) =>
      var total := TotalSamples(view.data[SLOT_QUERY_OFFSETS].u32s);
      EnsureAllAt(view, BaseSlots(dim.Arity()), total);
      ColumnsFloat(view, BaseSlots(dim.Arity()), total, InitColumns(ops, dim, view));
    case _ =>
      var total := TotalSamples(view.data[SLOT_QUERY_OFFSETS].u32s);
      var sized := EnsureAll(view, Outs(k), total);
      OutsDistinct(sized, Ins(k), Outs(k));
      ColumnsFloat(view, Outs(k), total, Columns(ops, k, sized, total));
  }

  lemma KernelFloatWrites(ops: Ops, k: Kernel, view: View)
    requires RunKernel(ops, k, view).Ok?
    ensures FloatWrites(view, RunKernel(ops, k, view).value)
  {
    hide RunKernel, Targets;
    KernelWrites(ops, k, view);
  }

  ghost function InitColumns(ops: Ops, dim: GraphDimension, view: View): (cols: seq<seq<f32>>)
    requires GridInited(ops, dim, view).Ok?
    ensures |cols| == |BaseSlots(dim.Arity())|
    ensures GridInited(ops, dim, view).value
         == WithColumns(EnsureAll(view, BaseSlots(dim.Arity()), TotalSamples(view.data[SLOT_QUERY_OFFSETS].u32s)),
                        BaseSlots(dim.Arity()), cols)
  {
    hide BatchColumns, EnsureAll, WithColumns;
    var offsets := view.data[SLOT_QUERY_OFFSETS].u32s;
    var total := TotalSamples(offsets);
    EnsureAllAt(view, BaseSlots(dim.Arity()), total);
    var sized := EnsureAll(view, BaseSlots(dim.Arity()), total);
    var n := if view.queryCount < |offsets| then view.queryCount else |offsets|;
    BatchColumns(ops, dim.Arity(), view.data[SLOT_QUERY_META].u32s, view.data[SLOT_QUERY_F32].f32s, offsets, n,
                 FloatColumns(sized, BaseSlots(dim.Arity()), total), total).value
  }

  lemma {:induction false} StageFloatWrites(ops: Ops, kernels: seq<Kernel>, view: View)
    requires RunStage(ops, kernels, view).Ok?
    ensures FloatWrites(view, RunStage(ops, kernels, view).value)
  {
    hide RunKernel;
    if kernels != [] {
      StageFloatWrites(ops, kernels[..|kernels| - 1], view);
      KernelFloatWrites(ops, kernels[|kernels| - 1], RunStage(ops, kernels[..|kernels| - 1], view).value);
    }
  }

  lemma {:induction false} RunFloatWrites(ops: Ops, stages: seq<seq<Kernel>>, view: View)
    requires RunStages(ops, stages, view).Ok?
    ensures FloatWrites(view, RunStages(ops, stages, view).value)
  {
    hide RunStage;
    if stages != [] {
      RunFloatWrites(ops, stages[..|stages| - 1], view);
      StageFloatWrites(ops, stages[|stages| - 1], RunStages(ops, stages[..|stages| - 1], view).value);
    }
  }

  lemma EncodeOneAgrees(dim: GraphDimension, q: ChunkQuery, view: View)
    requires q.Valid()
    ensures EncodedOne(dim, q, view) == Encoded(dim, [q], view)
  {
    hide FloatsOfQuery, Cast;
    var queries := [q];
    assert queries[..0] == [];
    assert MetaOf(queries) == MetaTriple(q);
    assert FloatsOf(queries) == FloatsOfQuery(q);
    assert Total(queries) == q.Samples();
    assert OffsetsOf(queries) == [0, Cast(q.Samples())];
  }

  lemma DecodeOneAgrees(finalSlot: u16, view: View, n: u32)
    requires SLOT_QUERY_OFFSETS in view.data && view.data[SLOT_QUERY_OFFSETS].U32? ==>
      view.data[SLOT_QUERY_OFFSETS].u32s == [0, n]
    ensures DecodedOne(finalSlot, view).Ok? <==> Decoded(finalSlot, view).Ok?
    ensures DecodedOne(finalSlot, view).Ok? ==> Decoded(finalSlot, view) == Ok([DecodedOne(finalSlot, view).value])
  {
    if SLOT_QUERY_OFFSETS in view.data && view.data[SLOT_QUERY_OFFSETS].U32? && finalSlot in view.data
      && view.data[finalSlot].F32? {
      var values, offsets := view.data[finalSlot].f32s, view.data[SLOT_QUERY_OFFSETS].u32s;
      assert Cut(values, offsets, 0) == Ok([]);
      if n <= |values| {
        assert Cut(values, offsets, 1).value == [values[0..n]];
      }
    }
  }

  /** The one-query path is the batch path on a batch of one, for every plan and packet. */
  lemma OneIsBatchOfOne(ops: Ops, plan: Plan, stages: seq<seq<Kernel>>, q: ChunkQuery, view: View)
    requires q.Valid()
    ensures ExecutedOne(ops, plan, stages, q, view).Ok? <==> Executed(ops, plan, stages, [q], view).Ok?
    ensures ExecutedOne(ops, plan, stages, q, view).Ok? ==>
      Executed(ops, plan, stages, [q], view) == Ok([ExecutedOne(ops, plan, stages, q, view).value])
  {
    hide Encoded, EncodedOne, RunStages, Decoded, DecodedOne, Cast;
    var start := Loaded(Cleared(view), plan.statics);
    EncodeOneAgrees(plan.meta.dimension, q, start);
    var encoded := EncodedOne(plan.meta.dimension, q, start);
    if encoded.Ok? && RunStages(ops, stages, encoded.value).Ok? {
      var done := RunStages(ops, stages, encoded.value).value;
      RunFloatWrites(ops, stages, encoded.value);
      EncodedOffsets(plan.meta.dimension, q, start);
      DecodeOneAgrees(plan.meta.finalSlot, done, Cast(q.Samples()));
    }
  }

  lemma EncodedOffsets(dim: GraphDimension, q: ChunkQuery, view: View)
    requires q.Valid() && EncodedOne(dim, q, view).Ok?
    ensures var now := EncodedOne(dim, q, view).value.data;
      SLOT_QUERY_OFFSETS in now && now[SLOT_QUERY_OFFSETS] == U32([0, Cast(q.Samples())])
  {}
}
