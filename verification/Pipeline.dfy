/** Compiled pipeline shapes and their validation. */
module Pipeline {
  import opened Common

  datatype BufferLayout = PerQueryScalar | PerQueryVector(width: nat) | Dynamic
  datatype BufferAccess = Read | Write | ReadWrite

  datatype BufferData = U32(u32s: seq<u32>) | U64(u64s: seq<u64>) | F32(f32s: seq<f32>) {
    function Kind(): ElementKind {
      match this
      case U32(_) => KindU32
      case U64(_) => KindU64
      case F32(_) => KindF32
    }

    function Len(): nat {
      match this
      case U32(v) => |v|
      case U64(v) => |v|
      case F32(v) => |v|
    }
  }

  function Empty(kind: ElementKind): (d: BufferData)
    ensures d.Kind() == kind && d.Len() == 0
  {
    match kind
    case KindU32 => U32([])
    case KindU64 => U64([])
    case KindF32 => F32([])
  }

  datatype BufferSpec = BufferSpec(slot: u16, kind: ElementKind, layout: BufferLayout)
  datatype BufferBinding = BufferBinding(slot: u16, access: BufferAccess)
  datatype KernelSpec = KernelSpec(kind: u32, payload: seq<u8>, bindings: seq<BufferBinding>)
  datatype StageSpec = StageSpec(kernels: seq<KernelSpec>)
  datatype StaticBuffer = StaticBuffer(slot: u16, data: BufferData)
  datatype CompiledPlan<M> = CompiledPlan(
    buffers: seq<BufferSpec>, stages: seq<StageSpec>, statics: seq<StaticBuffer>, meta: M)

  ghost predicate SlotsDistinct(buffers: seq<BufferSpec>) {
    forall i, j :: 0 <= i < j < |buffers| ==> buffers[i].slot != buffers[j].slot
  }

  ghost predicate Declares(buffers: seq<BufferSpec>, slot: u16) {
    exists i :: 0 <= i < |buffers| && buffers[i].slot == slot
  }

  ghost predicate StaticDeclared(buffers: seq<BufferSpec>, s: StaticBuffer) {
    exists i :: 0 <= i < |buffers| && buffers[i].slot == s.slot && buffers[i].kind == s.data.Kind()
  }

  ghost predicate BindingsDeclared(buffers: seq<BufferSpec>, k: KernelSpec) {
    forall b :: 0 <= b < |k.bindings| ==> Declares(buffers, k.bindings[b].slot)
  }

  ghost predicate StageDeclared(buffers: seq<BufferSpec>, stage: StageSpec) {
    forall k :: 0 <= k < |stage.kernels| ==> BindingsDeclared(buffers, stage.kernels[k])
  }

  /** What validate is for: unambiguous slots, declared and well-typed statics, declared bindings. */
  ghost predicate PlanValid<M>(plan: CompiledPlan<M>) {
    && SlotsDistinct(plan.buffers)
    && (forall i, j :: 0 <= i < j < |plan.statics| ==> plan.statics[i].slot != plan.statics[j].slot)
    && (forall i :: 0 <= i < |plan.statics| ==> StaticDeclared(plan.buffers, plan.statics[i]))
    && (forall s :: 0 <= s < |plan.stages| ==> StageDeclared(plan.buffers, plan.stages[s]))
  }

  /** In a valid plan every kernel binding names a declared buffer. */
  lemma ValidBinding<M>(plan: CompiledPlan<M>, s: nat, k: nat, b: nat) returns (d: nat)
    requires PlanValid(plan)
    requires s < |plan.stages| && k < |plan.stages[s].kernels| && b < |plan.stages[s].kernels[k].bindings|
    ensures d < |plan.buffers| && plan.buffers[d].slot == plan.stages[s].kernels[k].bindings[b].slot
  {
    assert StageDeclared(plan.buffers, plan.stages[s]);
    assert BindingsDeclared(plan.buffers, plan.stages[s].kernels[k]);
    assert Declares(plan.buffers, plan.stages[s].kernels[k].bindings[b].slot);
    d :| 0 <= d < |plan.buffers| && plan.buffers[d].slot == plan.stages[s].kernels[k].bindings[b].slot;
  }

  /** Every static buffer is declared once, with its kind. */
  lemma ValidStatic<M>(plan: CompiledPlan<M>, i: nat) returns (d: nat)
    requires PlanValid(plan) && i < |plan.statics|
    ensures d < |plan.buffers| && plan.buffers[d].slot == plan.statics[i].slot
    ensures plan.buffers[d].kind == plan.statics[i].data.Kind()
    ensures forall e :: 0 <= e < |plan.buffers| && plan.buffers[e].slot == plan.statics[i].slot ==> e == d
    ensures forall j :: 0 <= j < |plan.statics| && plan.statics[j].slot == plan.statics[i].slot ==> j == i
  {
    assert StaticDeclared(plan.buffers, plan.statics[i]);
    d :| 0 <= d < |plan.buffers| && plan.buffers[d].slot == plan.statics[i].slot
      && plan.buffers[d].kind == plan.statics[i].data.Kind();
  }

  /** Index the declared buffers by slot; a repeated slot is an invalid plan. */
  method SpecsBySlot(buffers: seq<BufferSpec>) returns (r: Result<map<u16, BufferSpec>>)
    ensures r.Ok? <==> SlotsDistinct(buffers)
    ensures r.Ok? ==>
      forall i :: 0 <= i < |buffers| ==> buffers[i].slot in r.value && r.value[buffers[i].slot] == buffers[i]
    ensures r.Ok? ==> forall s :: s in r.value ==> r.value[s] in buffers && r.value[s].slot == s
    ensures r.Err? ==> r.error == InvalidSpec
  {
    var specs: map<u16, BufferSpec> := map[];
    for i := 0 to |buffers|
      invariant forall a, b :: 0 <= a < b < i ==> buffers[a].slot != buffers[b].slot
      invariant forall a :: 0 <= a < i ==> buffers[a].slot in specs && specs[buffers[a].slot] == buffers[a]
      invariant forall s :: s in specs ==> exists a :: 0 <= a < i && specs[s] == buffers[a] && buffers[a].slot == s
    {
      if buffers[i].slot in specs {
        return Err(InvalidSpec);
      }
      specs := specs[buffers[i].slot := buffers[i]];
    }
    return Ok(specs);
  }

  method CheckStatics(ghost buffers: seq<BufferSpec>, specs: map<u16, BufferSpec>, statics: seq<StaticBuffer>)
    returns (ok: bool)
    requires SlotsDistinct(buffers)
    requires forall i :: 0 <= i < |buffers| ==> buffers[i].slot in specs && specs[buffers[i].slot] == buffers[i]
    requires forall s :: s in specs ==> specs[s] in buffers && specs[s].slot == s
    ensures ok <==>
      && (forall i, j :: 0 <= i < j < |statics| ==> statics[i].slot != statics[j].slot)
      && (forall i :: 0 <= i < |statics| ==> StaticDeclared(buffers, statics[i]))
  {
    var seen: set<u16> := {};
    for i := 0 to |statics|
      invariant forall a :: 0 <= a < i ==> statics[a].slot in seen
      invariant forall s :: s in seen ==> exists a :: 0 <= a < i && statics[a].slot == s
      invariant forall a, b :: 0 <= a < b < i ==> statics[a].slot != statics[b].slot
      invariant forall a :: 0 <= a < i ==> StaticDeclared(buffers, statics[a])
    {
      var buffer := statics[i];
      if buffer.slot in seen {
        return false;
      }
      seen := seen + {buffer.slot};
      if buffer.slot !in specs {
        return false;
      }
      if specs[buffer.slot].kind != buffer.data.Kind() {
        return false;
      }
    }
    return true;
  }

  method Validate<M>(plan: CompiledPlan<M>) returns (r: Result<()>)
    ensures r.Ok? <==> PlanValid(plan)
    ensures r.Err? ==> r.error == InvalidSpec
  {
    var specs :- SpecsBySlot(plan.buffers);
    assert forall s :: s in specs <==> Declares(plan.buffers, s);
    var statics := CheckStatics(plan.buffers, specs, plan.statics);
    if !statics {
      return Err(InvalidSpec);
    }
    for s := 0 to |plan.stages|
      invariant forall a :: 0 <= a < s ==> StageDeclared(plan.buffers, plan.stages[a])
    {
      var stage := plan.stages[s];
      for k := 0 to |stage.kernels|
        invariant forall a :: 0 <= a < k ==> BindingsDeclared(plan.buffers, stage.kernels[a])
      {
        var declared := CheckBindings(plan.buffers, specs.Keys, stage.kernels[k]);
        if !declared {
          assert !StageDeclared(plan.buffers, stage);
          return Err(InvalidSpec);
        }
      }
    }
    return Ok(());
  }

  method CheckBindings(ghost buffers: seq<BufferSpec>, declared: set<u16>, kernel: KernelSpec) returns (ok: bool)
    requires forall s :: s in declared <==> Declares(buffers, s)
    ensures ok <==> BindingsDeclared(buffers, kernel)
  {
    for b := 0 to |kernel.bindings|
      invariant forall a :: 0 <= a < b ==> Declares(buffers, kernel.bindings[a].slot)
    {
      if kernel.bindings[b].slot !in declared {
        return false;
      }
    }
    return true;
  }

  /** validate_len: Dynamic demands nothing, and an overflowing product is never met. */
  predicate LenConforms(spec: BufferSpec, queryCount: nat, len: nat) {
    match spec.layout
    case PerQueryScalar => len == queryCount
    case PerQueryVector(width) => queryCount * width < 0x1_0000_0000_0000_0000 && len == queryCount * width
    case Dynamic => true
  }

  predicate FirstOf(buffers: seq<BufferSpec>, slot: u16, i: nat) {
    i < |buffers| && buffers[i].slot == slot && forall j :: 0 <= j < i ==> buffers[j].slot != slot
  }

  /** A vector buffer holds its width for every query, a scalar one item, a dynamic one anything. */
  lemma LengthsDeclared(slot: u16, kind: ElementKind, queryCount: nat, width: nat, len: nat)
    ensures LenConforms(BufferSpec(slot, kind, PerQueryScalar), queryCount, len) <==> len == queryCount
    ensures queryCount * width < 0x1_0000_0000_0000_0000 ==>
      (LenConforms(BufferSpec(slot, kind, PerQueryVector(width)), queryCount, len) <==> len == queryCount * width)
    ensures LenConforms(BufferSpec(slot, kind, Dynamic), queryCount, len)
  {}

  /** The first declaration of a slot. */
  function SpecOf(buffers: seq<BufferSpec>, slot: u16): (r: Option<BufferSpec>)
    ensures r.Some? ==> exists i: nat :: FirstOf(buffers, slot, i) && r.value == buffers[i]
    ensures r.None? <==> !Declares(buffers, slot)
  {
    if buffers == [] then None
    else
      var init, last := buffers[..|buffers| - 1], buffers[|buffers| - 1];
      assert buffers == init + [last];
      var before := SpecOf(init, slot);
      if before.Some? then
        assert forall i: nat :: FirstOf(init, slot, i) ==> FirstOf(buffers, slot, i);
        before
      else if last.slot == slot then
        assert FirstOf(buffers, slot, |buffers| - 1);
        Some(last)
      else None
  }

  /**
   * What validate_packet demands of one buffer: undeclared slots are empty, declared ones have their kind and
   * length.
   */
  predicate BufferConforms(buffers: seq<BufferSpec>, queryCount: nat, slot: u16, data: BufferData) {
    match SpecOf(buffers, slot)
    case None => data.Len() == 0
    case Some(spec) => spec.kind == data.Kind() && LenConforms(spec, queryCount, data.Len())
  }
}
