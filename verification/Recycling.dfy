/** A recycled packet behaves like a fresh one, as far as a planner or kernel that ensures what it uses can tell. */
module Recycling {
  import opened Common
  import opened Pipeline
  import opened Packet
  import opened Runtime

  const FRESH: View := View(0, map[])

  datatype PacketOp =
    | EnsureOp(slot: u16, kind: ElementKind, len: nat)
    | WriteOp(slot: u16, at: nat, value: f32)
    | LoadOp(slot: u16, data: BufferData)
    | CountOp(n: nat)

  /** One operation; a failing write leaves the packet as it was. */
  function Step(op: PacketOp, view: View): (View, bool) {
    match op
    case EnsureOp(slot, kind, len) => (Ensure(view, slot, kind, len), true)
    case LoadOp(slot, data) => (view.(data := view.data[slot := data]), true)
    case CountOp(n) => (view.(queryCount := n), true)
    case WriteOp(slot, at, value) =>
      var r := Written(view, slot, at, value);
      if r.Ok? then (r.value, true) else (view, false)
  }

  /** The packet after a sequence of operations, and which of them succeeded. */
  function Play(ops: seq<PacketOp>, view: View): (r: (View, seq<bool>))
    ensures |r.1| == |ops|
  {
    if ops == [] then (view, [])
    else
      var before := Play(ops[..|ops| - 1], view);
      var after := Step(ops[|ops| - 1], before.0);
      (after.0, before.1 + [after.1])
  }

  /** The same operations on a packet's methods: what Play says happens. */
  method PlayOn(ops: seq<PacketOp>, packet: JobPacket) returns (log: seq<bool>)
    requires packet.Valid()
    modifies packet
    ensures packet.Valid()
    ensures (packet.Abstract(), log) == Play(ops, old(packet.Abstract()))
  {
    hide Written, Ensure;
    log := [];
    for i := 0 to |ops|
      invariant packet.Valid()
      invariant (packet.Abstract(), log) == Play(ops[..i], old(packet.Abstract()))
    {
      assert ops[..i + 1][..i] == ops[..i];
      match ops[i] {
        case EnsureOp(slot, kind, len) =>
          var index := packet.EnsureBuffer(slot, kind, len);
          log := log + [true];
        case LoadOp(slot, data) =>
          packet.LoadStaticBuffer(slot, data);
          log := log + [true];
        case CountOp(n) =>
          packet.SetQueryCount(n);
          log := log + [true];
        case WriteOp(slot, at, value) =>
          var r := packet.WriteFloat(slot, at, value);
          log := log + [r.Ok?];
      }
    }
    assert ops[..|ops|] == ops;
  }

  /** used holds what clean holds, and otherwise only empty leftovers. */
  ghost predicate Twin(clean: View, used: View) {
    && clean.queryCount == used.queryCount
    && (forall s :: s in clean.data ==> s in used.data && used.data[s] == clean.data[s])
    && (forall s :: s in used.data && s !in clean.data ==> used.data[s].Len() == 0)
  }

  /** From an empty leftover, ensure starts over. */
  lemma EnsureTwin(clean: View, used: View, slot: u16, kind: ElementKind, len: nat)
    requires Twin(clean, used)
    ensures EnsuredData(clean, slot, kind, len) == EnsuredData(used, slot, kind, len)
  {
    if slot in used.data && slot !in clean.data && used.data[slot].Kind() == kind {
      assert used.data[slot] == Empty(kind);
    }
  }

  lemma StepTwin(op: PacketOp, clean: View, used: View)
    requires Twin(clean, used)
    ensures Twin(Step(op, clean).0, Step(op, used).0) && Step(op, clean).1 == Step(op, used).1
  {
    hide EnsuredData;
    match op
    case EnsureOp(slot, kind, len) => EnsureTwin(clean, used, slot, kind, len);
    case _ =>
  }

  /**
   * Every operation succeeds or fails alike, and leaves alike whatever was ensured, on a cleared packet and a
   * fresh one.
   */
  lemma {:induction false} RecycledPlaysFresh(ops: seq<PacketOp>, view: View)
    ensures Play(ops, FRESH).1 == Play(ops, Cleared(view)).1
    ensures Twin(Play(ops, FRESH).0, Play(ops, Cleared(view)).0)
  {
    hide Step;
    if ops != [] {
      RecycledPlaysFresh(ops[..|ops| - 1], view);
      StepTwin(ops[|ops| - 1], Play(ops[..|ops| - 1], FRESH).0, Play(ops[..|ops| - 1], Cleared(view)).0);
    }
  }

  /** The one difference a reader can see: a leftover slot reads as empty where a fresh packet reports it missing. */
  lemma ReadsAlike(clean: View, used: View, slot: u16)
    requires Twin(clean, used)
    ensures (forall kind :: SliceOf(clean, slot, kind) == SliceOf(used, slot, kind))
      <==> (slot in clean.data || slot !in used.data)
  {
    if slot !in clean.data && slot in used.data {
      assert SliceOf(used, slot, used.data[slot].Kind()).Ok?;
    }
  }
}
