/** The reusable per-job packet: an index-accelerated buffer store that behaves as a map from slot to data. */
module Packet {
  import opened Common
  import opened Pipeline

  datatype PacketBuffer = PacketBuffer(slot: u16, data: BufferData)

  /** The abstract value of a packet. */
  datatype View = View(queryCount: nat, data: map<u16, BufferData>)

  /** resize_with: keep a prefix, pad with the default value 0. */
  function Resize(s: seq<int>, len: nat): (r: seq<int>)
    ensures |r| == len
    ensures forall i :: 0 <= i < len ==> r[i] == if i < |s| then s[i] else 0
  {
    if len <= |s| then s[..len] else s + seq(len - |s|, _ => 0)
  }

  function Resized(d: BufferData, len: nat): (r: BufferData)
    ensures r.Kind() == d.Kind() && r.Len() == len
  {
    match d
    case U32(v) => U32(Resize(v, len))
    case U64(v) => U64(Resize(v, len))
    case F32(v) => F32(Resize(v, len))
  }

  /** What ensure leaves at its slot, given what was there. */
  function EnsuredData(view: View, slot: u16, kind: ElementKind, len: nat): (r: BufferData)
    ensures r.Kind() == kind && r.Len() == len
  {
    if slot in view.data && view.data[slot].Kind() == kind
    then Resized(view.data[slot], len)
    else Resized(Empty(kind), len)
  }

  function Ensure(view: View, slot: u16, kind: ElementKind, len: nat): View {
    view.(data := view.data[slot := EnsuredData(view, slot, kind, len)])
  }

  /** Item i of a buffer. */
  function ItemOf(d: BufferData, i: nat): int
    requires i < d.Len()
  {
    match d case U32(v) => v[i] case U64(v) => v[i] case F32(v) => v[i]
  }

  /** After ensure the slot has the kind and length asked for; items it had in that kind stay, others are 0. */
  ghost predicate Ensured(was: View, slot: u16, kind: ElementKind, len: nat, now: View) {
    && now.queryCount == was.queryCount
    && (forall s :: s in now.data <==> s in was.data || s == slot)
    && (forall s :: s in was.data && s != slot ==> now.data[s] == was.data[s])
    && slot in now.data && now.data[slot].Kind() == kind && now.data[slot].Len() == len
    && forall i: nat :: i < len ==>
         ItemOf(now.data[slot], i) ==
           if slot in was.data && was.data[slot].Kind() == kind && i < was.data[slot].Len()
           then ItemOf(was.data[slot], i) else 0
  }

  lemma EnsureIsEnsured(view: View, slot: u16, kind: ElementKind, len: nat)
    ensures Ensured(view, slot, kind, len, Ensure(view, slot, kind, len))
  {}

  /** Same slots and kinds, nothing in them. */
  ghost predicate Emptied(was: View, now: View) {
    && now.queryCount == 0 && (forall s :: s in now.data <==> s in was.data)
    && forall s :: s in now.data ==> now.data[s].Len() == 0 && now.data[s].Kind() == was.data[s].Kind()
  }

  lemma ClearedIsEmptied(view: View)
    ensures Emptied(view, Cleared(view))
  {}

  /** One float written in place. */
  function Written(view: View, slot: u16, at: nat, value: f32): Result<View> {
    if slot !in view.data then Err(MissingBuffer(slot))
    else if !view.data[slot].F32? then Err(InvalidBufferType(slot, KindF32))
    else if at >= |view.data[slot].f32s| then Err(Panicked)
    else Ok(view.(data := view.data[slot := F32(view.data[slot].f32s[at := value])]))
  }

  function Cleared(view: View): View {
    View(0, map s | s in view.data :: Empty(view.data[s].Kind()))
  }

  /** Why with_slices refuses a request, checked slot by slot in order. */
  function SliceError(view: View, kind: ElementKind, slots: seq<u16>, upTo: nat): (r: Option<BraidError>)
    requires upTo <= |slots|
    ensures r.None? <==>
      && (forall i :: 0 <= i < upTo ==> slots[i] in view.data && view.data[slots[i]].Kind() == kind)
      && (forall i, j :: 0 <= i < j < upTo ==> slots[i] != slots[j])
  {
    if upTo == 0 then None
    else
      var before := SliceError(view, kind, slots, upTo - 1);
      var slot := slots[upTo - 1];
      if before.Some? then before
      else if slot !in view.data then Some(MissingBuffer(slot))
      else if slot in slots[..upTo - 1] then
        assert exists i :: 0 <= i < upTo - 1 && slots[i] == slot;
        Some(Message)
      else if view.data[slot].Kind() != kind then Some(InvalidBufferType(slot, kind))
      else None
  }

  /** The error reported is that of the first slot that is missing, repeated or of another kind. */
  lemma {:induction false} FirstRefusal(view: View, kind: ElementKind, slots: seq<u16>, upTo: nat) returns (i: nat)
    requires upTo <= |slots| && SliceError(view, kind, slots, upTo).Some?
    ensures i < upTo && SliceError(view, kind, slots, i).None?
    ensures SliceError(view, kind, slots, upTo) ==
      if slots[i] !in view.data then Some(MissingBuffer(slots[i]))
      else if slots[i] in slots[..i] then Some(Message)
      else Some(InvalidBufferType(slots[i], kind))
    ensures slots[i] in view.data && slots[i] !in slots[..i] ==> view.data[slots[i]].Kind() != kind
  {
    if SliceError(view, kind, slots, upTo - 1).Some? {
      i := FirstRefusal(view, kind, slots, upTo - 1);
    } else {
      i := upTo - 1;
    }
  }

  /** Each index entry names the buffer of its slot. */
  ghost predicate Indexed(buffers: seq<PacketBuffer>, indices: seq<Option<nat>>) {
    forall s :: 0 <= s < |indices| && indices[s].Some? ==>
      indices[s].value < |buffers| && buffers[indices[s].value].slot == s
  }

  /** Each buffer is named by the entry of its slot. */
  ghost predicate Listed(buffers: seq<PacketBuffer>, indices: seq<Option<nat>>) {
    forall i :: 0 <= i < |buffers| ==> buffers[i].slot < |indices| && indices[buffers[i].slot] == Some(i)
  }

  ghost function DataOf(buffers: seq<PacketBuffer>, indices: seq<Option<nat>>): map<u16, BufferData>
    requires Indexed(buffers, indices)
  {
    map s: u16 | s < |indices| && indices[s].Some? :: buffers[indices[s].value].data
  }

  function WithIndex(indices: seq<Option<nat>>, slot: u16, index: nat): seq<Option<nat>> {
    (if |indices| <= slot then indices + seq(slot + 1 - |indices|, _ => None) else indices)[slot := Some(index)]
  }

  /** Appending a buffer for a new slot keeps the two tables inverse and adds one map entry. */
  lemma {:induction false} AppendBuffer(buffers: seq<PacketBuffer>, indices: seq<Option<nat>>, b: PacketBuffer)
    requires Indexed(buffers, indices) && Listed(buffers, indices) && b.slot !in DataOf(buffers, indices)
    ensures var buffers', indices' := buffers + [b], WithIndex(indices, b.slot, |buffers|);
      && Indexed(buffers', indices') && Listed(buffers', indices')
      && DataOf(buffers', indices') == DataOf(buffers, indices)[b.slot := b.data]
  {
    var buffers', indices' := buffers + [b], WithIndex(indices, b.slot, |buffers|);
    assert forall s :: 0 <= s < |indices'| && s != b.slot ==>
      indices'[s] == if s < |indices| then indices[s] else None;
    assert Indexed(buffers', indices');
    forall i | 0 <= i < |buffers'| ensures buffers'[i].slot < |indices'| && indices'[buffers'[i].slot] == Some(i) {
      if i < |buffers| {
        assert indices[buffers[i].slot] == Some(i);
        assert buffers[i].slot in DataOf(buffers, indices);
      }
    }
  }

  /** ensure_slot then resize is one update of the slot. */
  lemma EnsureTwice(view: View, slot: u16, kind: ElementKind, mid: BufferData, len: nat)
    requires mid == if slot in view.data && view.data[slot].Kind() == kind then view.data[slot] else Empty(kind)
    ensures View(view.queryCount, view.data[slot := mid][slot := Resized(mid, len)]) == Ensure(view, slot, kind, len)
  {
    assert view.data[slot := mid][slot := Resized(mid, len)] == view.data[slot := Resized(mid, len)];
  }

  class JobPacket {
    var queryCount: nat
    var buffers: seq<PacketBuffer>
    var slotIndices: seq<Option<nat>>
    var isDirty: bool

    /** buffers and slotIndices are mutually inverse, and a clean packet holds only empty buffers. */
    ghost predicate Valid()
      reads this
    {
      && |slotIndices| <= U16_COUNT
      && Indexed(buffers, slotIndices)
      && Listed(buffers, slotIndices)
      && (!isDirty ==> forall i :: 0 <= i < |buffers| ==> buffers[i].data.Len() == 0)
    }

    ghost function Abstract(): View
      reads this
      requires Valid()
    {
      View(queryCount, DataOf(buffers, slotIndices))
    }

    constructor ()
      ensures Valid() && Abstract() == View(0, map[])
    {
      queryCount, buffers, slotIndices, isDirty := 0, [], [], false;
    }

    function QueryCount(): (n: nat)
      reads this
      requires Valid()
      ensures n == Abstract().queryCount
    {
      queryCount
    }

    method SetQueryCount(n: nat)
      requires Valid()
      modifies this`queryCount
      ensures Valid() && Abstract() == old(Abstract()).(queryCount := n)
    {
      queryCount := n;
    }

    /** The early return on a clean flag is exact: the result is the cleared view either way. */
    method ClearForReuse()
      requires Valid()
      modifies this
      ensures Valid() && !isDirty
      ensures Abstract() == Cleared(old(Abstract()))
      ensures Emptied(old(Abstract()), Abstract())
    {
      hide Emptied;
      ClearedIsEmptied(Abstract());
      queryCount := 0;
      if !isDirty {
        assert forall i :: 0 <= i < |buffers| ==> buffers[i].data == Empty(buffers[i].data.Kind());
        return;
      }
      ghost var was := buffers;
      for i := 0 to |buffers|
        invariant |buffers| == |was| && slotIndices == old(slotIndices) && queryCount == 0
        invariant forall j :: 0 <= j < i ==> buffers[j] == PacketBuffer(was[j].slot, Empty(was[j].data.Kind()))
        invariant forall j :: i <= j < |was| ==> buffers[j] == was[j]
      {
        buffers := buffers[i := PacketBuffer(buffers[i].slot, Empty(buffers[i].data.Kind()))];
      }
      isDirty := false;
    }

    function SlotIndex(slot: u16): (r: Option<nat>)
      reads this
      requires Valid()
      ensures r.Some? <==> slot in Abstract().data
      ensures r.Some? ==>
        r.value < |buffers| && buffers[r.value].slot == slot && buffers[r.value].data == Abstract().data[slot]
    {
      if slot < |slotIndices| then slotIndices[slot] else None
    }

    /** Replacing one buffer's data changes the view at that buffer's slot only. */
    method Store(index: nat, data: BufferData)
      requires Valid() && index < |buffers|
      requires isDirty || data.Len() == 0
      modifies this`buffers
      ensures Valid() && buffers == old(buffers)[index := PacketBuffer(old(buffers)[index].slot, data)]
      ensures Abstract() == old(Abstract()).(data := old(Abstract()).data[buffers[index].slot := data])
    {
      buffers := buffers[index := PacketBuffer(buffers[index].slot, data)];
    }

    /** Append an empty buffer for a slot the packet has not seen, and index it. */
    method Append(slot: u16, kind: ElementKind)
      requires Valid() && slot !in Abstract().data
      modifies this`buffers, this`slotIndices
      ensures Valid() && buffers == old(buffers) + [PacketBuffer(slot, Empty(kind))]
      ensures Abstract() == old(Abstract()).(data := old(Abstract()).data[slot := Empty(kind)])
      ensures SlotIndex(slot) == Some(|old(buffers)|)
    {
      AppendBuffer(buffers, slotIndices, PacketBuffer(slot, Empty(kind)));
      slotIndices := WithIndex(slotIndices, slot, |buffers|);
      buffers := buffers + [PacketBuffer(slot, Empty(kind))];
    }

    method EnsureSlot(slot: u16, expected: ElementKind) returns (index: nat)
      requires Valid()
      modifies this`buffers, this`slotIndices
      ensures Valid() && index < |buffers|
      ensures buffers[index] == PacketBuffer(slot,
        if slot in old(Abstract()).data && old(Abstract()).data[slot].Kind() == expected
        then old(Abstract()).data[slot] else Empty(expected))
      ensures Abstract() == old(Abstract()).(data := old(Abstract()).data[slot := buffers[index].data])
    {
      var found := SlotIndex(slot);
      if found.None? {
        Append(slot, expected);
        return |buffers| - 1;
      }
      index := found.value;
      if buffers[index].data.Kind() != expected {
        Store(index, Empty(expected));
      }
    }

    method MarkDirty()
      requires Valid()
      modifies this`isDirty
      ensures Valid() && isDirty && Abstract() == old(Abstract())
    {
      isDirty := true;
    }

    method EnsureBuffer(slot: u16, kind: ElementKind, len: nat) returns (index: nat)
      requires Valid()
      modifies this`buffers, this`slotIndices, this`isDirty
      ensures Valid() && isDirty
      ensures SlotIndex(slot) == Some(index)
      ensures Abstract() == Ensure(old(Abstract()), slot, kind, len)
      ensures Ensured(old(Abstract()), slot, kind, len, Abstract())
    {
      hide Ensured;
      EnsureIsEnsured(Abstract(), slot, kind, len);
      index := EnsureSlot(slot, kind);
      MarkDirty();
      EnsureTwice(old(Abstract()), slot, kind, buffers[index].data, len);
      Store(index, Resized(buffers[index].data, len));
    }

    method LoadStaticBuffer(slot: u16, data: BufferData)
      requires Valid()
      modifies this`buffers, this`slotIndices, this`isDirty
      ensures Valid()
      ensures Abstract() == old(Abstract()).(data := old(Abstract()).data[slot := data])
    {
      var index := EnsureBuffer(slot, data.Kind(), data.Len());
      Store(index, data);
    }

    method Slice(slot: u16, kind: ElementKind) returns (r: Result<BufferData>)
      requires Valid()
      ensures r == if slot !in Abstract().data then Err(MissingBuffer(slot))
                   else if Abstract().data[slot].Kind() != kind then Err(InvalidBufferType(slot, kind))
                   else Ok(Abstract().data[slot])
    {
      var found := SlotIndex(slot);
      if found.None? {
        return Err(MissingBuffer(slot));
      }
      if buffers[found.value].data.Kind() != kind {
        return Err(InvalidBufferType(slot, kind));
      }
      return Ok(buffers[found.value].data);
    }

    /** slice_mut: where the slot's data is, for writing in place. */
    method SliceMut(slot: u16, kind: ElementKind) returns (r: Result<nat>)
      requires Valid()
      modifies this`isDirty
      ensures Valid() && Abstract() == old(Abstract())
      ensures r.Ok? <==> slot in Abstract().data && Abstract().data[slot].Kind() == kind
      ensures r.Ok? ==> isDirty && SlotIndex(slot) == Some(r.value)
      ensures slot !in Abstract().data ==> r == Err(MissingBuffer(slot))
      ensures slot in Abstract().data && Abstract().data[slot].Kind() != kind ==>
        r == Err(InvalidBufferType(slot, kind))
    {
      var found := SlotIndex(slot);
      if found.None? {
        return Err(MissingBuffer(slot));
      }
      if buffers[found.value].data.Kind() != kind {
        return Err(InvalidBufferType(slot, kind));
      }
      MarkDirty();
      return Ok(found.value);
    }

    /** Write one float through slice_mut; out of bounds panics. */
    method WriteFloat(slot: u16, at: nat, value: f32) returns (r: Result<()>)
      requires Valid()
      modifies this`isDirty, this`buffers
      ensures Valid()
      ensures r.Ok? <==>
        slot in old(Abstract()).data && old(Abstract()).data[slot].F32? && at < |old(Abstract()).data[slot].f32s|
      ensures r.Ok? ==> Abstract() == old(Abstract()).(data :=
        old(Abstract()).data[slot := F32(old(Abstract()).data[slot].f32s[at := value])])
      ensures r.Ok? ==> Written(old(Abstract()), slot, at, value) == Ok(Abstract())
      ensures r.Err? ==> Written(old(Abstract()), slot, at, value) == Err(r.error) && Abstract() == old(Abstract())
    {
      var index :- SliceMut(slot, KindF32);
      if at >= buffers[index].data.Len() {
        return Err(Panicked);
      }
      Store(index, F32(buffers[index].data.f32s[at := value]));
      return Ok(());
    }

    /** Resolve several slots at once; a granted request never aliases two of them. */
    method WithSlices(slots: seq<u16>, kind: ElementKind) returns (r: Result<seq<nat>>)
      requires Valid()
      ensures SliceError(Abstract(), kind, slots, |slots|).Some? ==>
        r == Err(SliceError(Abstract(), kind, slots, |slots|).value)
      ensures SliceError(Abstract(), kind, slots, |slots|).None? ==>
        && r.Ok? && |r.value| == |slots| && NoDuplicates(r.value)
        && forall i :: 0 <= i < |slots| ==>
             r.value[i] < |buffers| && buffers[r.value[i]] == PacketBuffer(slots[i], Abstract().data[slots[i]])
    {
      var indices: seq<nat> := [];
      for i := 0 to |slots|
        invariant |indices| == i
        invariant SliceError(Abstract(), kind, slots, i).None?
        invariant forall j :: 0 <= j < i ==>
          indices[j] < |buffers| && buffers[indices[j]] == PacketBuffer(slots[j], Abstract().data[slots[j]])
      {
        var found := SlotIndex(slots[i]);
        if found.None? {
          FirstSliceError(Abstract(), kind, slots, i + 1, |slots|);
          return Err(MissingBuffer(slots[i]));
        }
        if found.value in indices {
          FirstSliceError(Abstract(), kind, slots, i + 1, |slots|);
          return Err(Message);
        }
        assert slots[i] !in slots[..i] by {
          forall j | 0 <= j < i ensures slots[j] != slots[i] {
            assert indices[j] in indices;
          }
        }
        if buffers[found.value].data.Kind() != kind {
          FirstSliceError(Abstract(), kind, slots, i + 1, |slots|);
          return Err(InvalidBufferType(slots[i], kind));
        }
        indices := indices + [found.value];
      }
      return Ok(indices);
    }
  }

  lemma {:induction false} FirstSliceError(view: View, kind: ElementKind, slots: seq<u16>, i: nat, j: nat)
    requires i <= j <= |slots|
    requires SliceError(view, kind, slots, i).Some?
    ensures SliceError(view, kind, slots, j) == SliceError(view, kind, slots, i)
  {
    if i < j {
      FirstSliceError(view, kind, slots, i, j - 1);
    }
  }

  /** A cancellation flag that other threads may set: sees says what its n-th read finds. */
  class CancelFlag {
    const sees: nat -> bool
    var polls: nat

    constructor (sees: nat -> bool)
      ensures this.sees == sees && polls == 0
    {
      this.sees, polls := sees, 0;
    }

    /** What the next read will see. */
    ghost predicate Set()
      reads this
    {
      sees(polls)
    }

    method IsCancelled() returns (cancelled: bool)
      modifies this
      ensures polls == old(polls) + 1 && cancelled == old(Set())
    {
      cancelled := sees(polls);
      polls := polls + 1;
    }
  }
}
