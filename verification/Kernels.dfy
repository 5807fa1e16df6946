/** The kernels as loops over a packet's buffers, each proved to do what Runtime says it does. */
module Kernels {
  import opened Common
  import opened Model
  import opened Semantics
  import opened Pipeline
  import opened Packet
  import opened Grid
  import opened Runtime

  /** now is base with the named buffers' contents replaced by cols. */
  ghost predicate Filled(
    base: seq<PacketBuffer>, now: seq<PacketBuffer>, at: seq<nat>, outs: seq<u16>, cols: seq<seq<f32>>)
  {
    && |now| == |base| && |at| == |outs| == |cols|
    && (forall b :: 0 <= b < |base| && b !in at ==> now[b] == base[b])
    && (forall c :: 0 <= c < |at| ==> at[c] < |base| && now[at[c]] == PacketBuffer(outs[c], F32(cols[c])))
  }

  /** now agrees with view except that each of outs holds its column. */
  ghost predicate HasColumns(view: View, now: View, outs: seq<u16>, cols: seq<seq<f32>>)
    requires |cols| == |outs|
  {
    && now.queryCount == view.queryCount
    && (forall s :: s in now.data <==> s in view.data || s in outs)
    && (forall s :: s in view.data && s !in outs ==> now.data[s] == view.data[s])
    && (forall c :: 0 <= c < |outs| ==> now.data[outs[c]] == F32(cols[c]))
  }

  lemma {:induction false} WithColumnsAt(view: View, outs: seq<u16>, cols: seq<seq<f32>>)
    requires |cols| == |outs| && NoDuplicates(outs)
    ensures HasColumns(view, WithColumns(view, outs, cols), outs, cols)
    decreases |outs|
  {
    hide HasColumns;
    if outs == [] {
      NoColumns(view);
    } else {
      var n := |outs| - 1;
      WithColumnsAt(view, outs[..n], cols[..n]);
      assert outs == outs[..n] + [outs[n]] && cols == cols[..n] + [cols[n]];
      OneColumn(view, WithColumns(view, outs[..n], cols[..n]), outs[..n], cols[..n], outs[n], cols[n]);
    }
  }

  lemma NoColumns(view: View)
    ensures HasColumns(view, view, [], [])
  {}

  lemma OneColumn(view: View, now: View, outs: seq<u16>, cols: seq<seq<f32>>, slot: u16, col: seq<f32>)
    requires |cols| == |outs| && slot !in outs && HasColumns(view, now, outs, cols)
    ensures HasColumns(view, now.(data := now.data[slot := F32(col)]), outs + [slot], cols + [col])
  {
    assert forall s :: s in outs + [slot] <==> s in outs || s == slot;
  }

  /** Replacing buffers in place is WithColumns on the view. */
  lemma FilledView(
    qc: nat, base: seq<PacketBuffer>, now: seq<PacketBuffer>, indices: seq<Option<nat>>,
    at: seq<nat>, outs: seq<u16>, cols: seq<seq<f32>>)
    requires Indexed(base, indices) && Listed(base, indices) && NoDuplicates(outs)
    requires Filled(base, now, at, outs, cols)
    requires forall c :: 0 <= c < |at| ==> base[at[c]].slot == outs[c]
    ensures Indexed(now, indices) && Listed(now, indices)
    ensures View(qc, DataOf(now, indices)) == WithColumns(View(qc, DataOf(base, indices)), outs, cols)
  {
    hide WithColumns;
    forall b | 0 <= b < |base| ensures now[b].slot == base[b].slot {
      if b in at {
        var c :| 0 <= c < |at| && at[c] == b;
      }
    }
    var view := View(qc, DataOf(base, indices));
    WithColumnsAt(view, outs, cols);
    var left, right := DataOf(now, indices), WithColumns(view, outs, cols).data;
    forall s | s in outs ensures s in view.data && left[s] == right[s] {
      var c :| 0 <= c < |outs| && outs[c] == s;
      assert indices[base[at[c]].slot] == Some(at[c]);
    }
    assert left.Keys == right.Keys;
    forall s: u16 | s in left && s !in outs ensures left[s] == right[s] {
      var b := indices[s].value;
      assert base[b].slot == s;
      assert b !in at;
    }
  }

  method EnsureOutputs(packet: JobPacket, slots: seq<u16>, total: nat)
    requires packet.Valid() && slots != []
    modifies packet
    ensures packet.Valid() && packet.isDirty
    ensures packet.Abstract() == EnsureAll(old(packet.Abstract()), slots, total)
  {
    for i := 0 to |slots|
      invariant packet.Valid() && (i > 0 ==> packet.isDirty)
      invariant packet.Abstract() == EnsureAll(old(packet.Abstract()), slots[..i], total)
    {
      assert slots[..i + 1][..i] == slots[..i];
      var index := packet.EnsureBuffer(slots[i], KindF32, total);
    }
    assert slots[..|slots|] == slots;
  }

  /** at names the buffers of the given float slots. */
  ghost predicate Located(view: View, buffers: seq<PacketBuffer>, slots: seq<u16>, at: seq<nat>) {
    && |at| == |slots|
    && forall a :: 0 <= a < |slots| ==>
         && at[a] < |buffers| && slots[a] in view.data
         && buffers[at[a]] == PacketBuffer(slots[a], view.data[slots[a]])
         && view.data[slots[a]].F32?
  }

  /** The values one sample reads; None when an index is out of bounds. */
  method Gather(buffers: seq<PacketBuffer>, from: seq<nat>, ghost view: View, ghost slots: seq<u16>, index: nat)
    returns (args: Option<seq<f32>>)
    requires Located(view, buffers, slots, from)
    ensures args.Some? <==> Readable(view, slots, index + 1)
    ensures args.Some? ==> args.value == Args(view, slots, index)
  {
    var got: seq<f32> := [];
    for a := 0 to |from|
      invariant Readable(view, slots[..a], index + 1)
      invariant |got| == a && forall b :: 0 <= b < a ==> got[b] == view.data[slots[b]].f32s[index]
    {
      assert slots[a] in slots;
      if index >= |buffers[from[a]].data.f32s| {
        return None;
      }
      got := got + [buffers[from[a]].data.f32s[index]];
      assert slots[..a + 1] == slots[..a] + [slots[a]];
    }
    assert slots[..|slots|] == slots;
    assert got == Args(view, slots, index);
    return Some(got);
  }

  ghost function PutAll(cols: seq<seq<f32>>, index: nat, vals: seq<f32>, n: nat): (r: seq<seq<f32>>)
    requires n <= |cols| == |vals| && forall a :: 0 <= a < |cols| ==> index < |cols[a]|
    ensures |r| == |cols|
    ensures forall a :: 0 <= a < |cols| ==> r[a] == if a < n then cols[a][index := vals[a]] else cols[a]
  {
    seq(|cols|, a requires 0 <= a < |cols| => if a < n then cols[a][index := vals[a]] else cols[a])
  }

  /** Write one sample into each output buffer. */
  method Scatter(packet: JobPacket, at: seq<nat>, index: nat, vals: seq<f32>, ghost base: seq<PacketBuffer>,
                 ghost outs: seq<u16>, ghost cols: seq<seq<f32>>)
    requires packet.Valid() && packet.isDirty && NoDuplicates(at)
    requires Filled(base, packet.buffers, at, outs, cols)
    requires |vals| == |at| && forall a :: 0 <= a < |cols| ==> index < |cols[a]|
    modifies packet`buffers
    ensures packet.Valid()
    ensures Filled(base, packet.buffers, at, outs, PutPoint(cols, index, vals))
  {
    hide JobPacket.Valid, JobPacket.Abstract, Filled;
    FillStart(base, packet.buffers, at, outs, cols, index, vals);
    for c := 0 to |at|
      invariant packet.Valid()
      invariant Filled(base, packet.buffers, at, outs, PutAll(cols, index, vals, c))
    {
      FillNext(base, packet.buffers, at, outs, cols, index, vals, c);
      packet.Store(at[c], F32(packet.buffers[at[c]].data.f32s[index := vals[c]]));
    }
    assert PutAll(cols, index, vals, |at|) == PutPoint(cols, index, vals);
  }

  lemma FillStart(base: seq<PacketBuffer>, now: seq<PacketBuffer>, at: seq<nat>, outs: seq<u16>, cols: seq<seq<f32>>,
                  index: nat, vals: seq<f32>)
    requires |vals| == |at| && (forall a :: 0 <= a < |cols| ==> index < |cols[a]|) && Filled(base, now, at, outs, cols)
    ensures |cols| == |at| && |now| == |base| && (forall a :: 0 <= a < |at| ==> at[a] < |base|)
    ensures Filled(base, now, at, outs, PutAll(cols, index, vals, 0))
  {
    assert PutAll(cols, index, vals, 0) == cols;
  }

  /** One more of the outputs written. */
  lemma FillNext(base: seq<PacketBuffer>, now: seq<PacketBuffer>, at: seq<nat>, outs: seq<u16>, cols: seq<seq<f32>>,
                 index: nat, vals: seq<f32>, c: nat)
    requires |vals| == |at| && |cols| == |at| && (forall a :: 0 <= a < |cols| ==> index < |cols[a]|)
    requires c < |at| && NoDuplicates(at) && Filled(base, now, at, outs, PutAll(cols, index, vals, c))
    ensures at[c] < |now| && now[at[c]].data.F32? && now[at[c]].data.f32s == cols[c]
    ensures var next := now[at[c] := PacketBuffer(now[at[c]].slot, F32(cols[c][index := vals[c]]))];
      Filled(base, next, at, outs, PutAll(cols, index, vals, c + 1))
  {}

  ghost predicate Computed(ops: Ops, k: Kernel, view: View, n: nat, cols: seq<seq<f32>>, total: nat)
    requires !k.GridInit? && Ready(k)
  {
    && n <= total && Readable(view, Ins(k), n) && Columnar(cols, |Outs(k)|, total)
    && forall c, i :: 0 <= c < |cols| && 0 <= i < n ==> cols[c][i] == SampleOut(ops, k, Args(view, Ins(k), i), c)
  }

  function Outputs(ops: Ops, k: Kernel, args: seq<f32>): (r: seq<f32>)
    requires !k.GridInit? && Ready(k) && |args| == |Ins(k)|
    ensures |r| == |Outs(k)| && forall c :: 0 <= c < |r| ==> r[c] == SampleOut(ops, k, args, c)
  {
    seq<f32>(|Outs(k)|, c requires 0 <= c < |Outs(k)| => SampleOut(ops, k, args, c))
  }

  lemma ComputedStep(ops: Ops, k: Kernel, view: View, n: nat, cols: seq<seq<f32>>, total: nat)
    requires !k.GridInit? && Ready(k) && n < total
    requires Computed(ops, k, view, n, cols, total) && Readable(view, Ins(k), n + 1)
    ensures Computed(ops, k, view, n + 1, PutPoint(cols, n, Outputs(ops, k, Args(view, Ins(k), n))), total)
  {}

  lemma ComputedAll(ops: Ops, k: Kernel, view: View, cols: seq<seq<f32>>, total: nat)
    requires !k.GridInit? && Ready(k) && Computed(ops, k, view, total, cols, total)
    ensures cols == Columns(ops, k, view, total)
  {
    forall c | 0 <= c < |cols| ensures cols[c] == Column(ops, k, view, total, c) {}
  }

  /** How often a kernel polls the cancel flag. */
  function PollEvery(k: Kernel): (n: nat)
    ensures n > 0
  {
    match k
    case WarpKernel(s, _, _) => if |s| == 2 then 4096 else 2048
    case SampleKernel(s, _, _) => if |s| == 2 then 4096 else 2048
    case CombineKernel(op, _, _, _) => if op.YGradient? then 2048 else 4096
    case _ => 1
  }

  /** The only result a kernel's specification does not fix: the last of the polls made since saw the cancel flag. */
  ghost predicate Interrupted(error: BraidError, cancel: CancelFlag, since: nat)
    reads cancel
  {
    error == Cancelled && since < cancel.polls && cancel.sees(cancel.polls - 1)
  }

  /** How many of the indices below n are multiples of every. */
  function PollCount(every: nat, n: nat): nat
    requires every > 0
  {
    if n == 0 then 0 else PollCount(every, n - 1) + if (n - 1) % every == 0 then 1 else 0
  }

  /** Warps and samples in two dimensions, and combines, poll every 4096 samples; the others every 2048. */
  lemma PollIntervals(k: Kernel)
    requires k.Shaped() && !k.GridInit?
    ensures PollEvery(k) == match k
      case CombineKernel(op, _, _, _) => if op == YGradient then 2048 else 4096
      case WarpKernel(source, _, _) => if |source| == 3 then 2048 else 4096
      case SampleKernel(source, _, _) => if |source| == 3 then 2048 else 4096
  {}

  /** Every poll made since saw the flag clear. */
  ghost predicate Clear(cancel: CancelFlag, since: nat)
    reads cancel
  {
    ClearBetween(cancel.sees, since, cancel.polls)
  }

  ghost predicate ClearBetween(sees: nat -> bool, from: nat, to: nat) {
    forall p: nat :: from <= p < to ==> !sees(p)
  }

  lemma ClearNext(sees: nat -> bool, from: nat, to: nat)
    requires ClearBetween(sees, from, to) && !sees(to)
    ensures ClearBetween(sees, from, to + 1)
  {}

  lemma ClearNothing(sees: nat -> bool, at: nat)
    ensures ClearBetween(sees, at, at)
  {}

  /** Polls of a grid with d layers of h rows. */
  function RowPolls(every: nat, h: nat, d: nat): nat
    requires every > 0
  {
    if d == 0 then 0 else RowPolls(every, h, d - 1) + PollCount(every, h)
  }

  lemma NoPolls(every: nat)
    requires every > 0
    ensures PollCount(every, 0) == 0
  {}

  lemma PollNext(every: nat, n: nat)
    requires every > 0
    ensures PollCount(every, n + 1) == PollCount(every, n) + if n % every == 0 then 1 else 0
  {}

  /** Columns written into float buffers keep all kinds. */
  lemma ColumnsKeepKinds(view: View, outs: seq<u16>, cols: seq<seq<f32>>)
    requires |cols| == |outs| && NoDuplicates(outs)
    requires forall s :: s in outs ==> s in view.data && view.data[s].F32?
    ensures KindsKept(view, WithColumns(view, outs, cols))
  {
    hide WithColumns;
    WithColumnsAt(view, outs, cols);
    var now := WithColumns(view, outs, cols);
    forall s | s in view.data ensures now.data[s].Kind() == view.data[s].Kind() {
      if s in outs {
        var c :| 0 <= c < |outs| && outs[c] == s;
        assert now.data[outs[c]] == F32(cols[c]);
      }
    }
    assert forall s :: s in now.data.Keys <==> s in view.data.Keys;
  }

  /** Buffers filled so far, whatever was written, keep all kinds. */
  lemma FilledKeepsKinds(
    qc: nat, base: seq<PacketBuffer>, now: seq<PacketBuffer>, indices: seq<Option<nat>>, at: seq<nat>, outs: seq<u16>,
    cols: seq<seq<f32>>)
    requires Indexed(base, indices) && Listed(base, indices) && NoDuplicates(outs)
    requires Filled(base, now, at, outs, cols)
    requires Located(View(qc, DataOf(base, indices)), base, outs, at)
    ensures Indexed(now, indices)
    ensures KindsKept(View(qc, DataOf(base, indices)), View(qc, DataOf(now, indices)))
  {
    hide WithColumns, Indexed, Listed;
    FilledView(qc, base, now, indices, at, outs, cols);
    ColumnsKeepKinds(View(qc, DataOf(base, indices)), outs, cols);
  }

  /** No sample reads out of bounds or clamps with illegal bounds. */
  predicate Succeeds(ops: Ops, k: Kernel, view: View, total: nat)
    requires !k.GridInit? && Ready(k)
  {
    Readable(view, Ins(k), total) && (total > 0 ==> !ClampPanics(ops, k))
  }

  /** The sample loop: every index computed from the inputs at that index, unless it panics or is cancelled. */
  method FillSamples(ops: Ops, k: Kernel, packet: JobPacket, from: seq<nat>, at: seq<nat>, total: nat,
                     cancel: CancelFlag) returns (r: Result<()>)
    requires packet.Valid() && packet.isDirty && !k.GridInit? && Ready(k)
    requires NoDuplicates(from + at) && NoDuplicates(Outs(k))
    requires Located(packet.Abstract(), packet.buffers, Ins(k), from)
    requires Located(packet.Abstract(), packet.buffers, Outs(k), at)
    requires forall s :: s in Outs(k) ==> packet.Abstract().data[s].Len() == total
    modifies packet`buffers, cancel
    ensures packet.Valid() && cancel.polls >= old(cancel.polls)
    ensures r.Ok? ==> Clear(cancel, old(cancel.polls))
    ensures KindsKept(old(packet.Abstract()), packet.Abstract())
    ensures r.Ok? ==> Succeeds(ops, k, old(packet.Abstract()), total)
    ensures r.Ok? ==> cancel.polls == old(cancel.polls) + PollCount(PollEvery(k), total)
    ensures r.Ok? ==>
      packet.Abstract() == WithColumns(old(packet.Abstract()), Outs(k), Columns(ops, k, old(packet.Abstract()), total))
    ensures r.Err? ==>
      Interrupted(r.error, cancel, old(cancel.polls))
        || (r.error == Panicked && !Succeeds(ops, k, old(packet.Abstract()), total))
  {
    hide WithColumns, Columns, SampleOut, Ins, Outs, ClampPanics, KindsKept, Clear, Interrupted, PollCount, PollEvery;
    ghost var view := packet.Abstract();
    ghost var base := packet.buffers;
    ghost var start := seq(|at|, c requires 0 <= c < |at| => base[at[c]].data.f32s);
    assert Filled(base, base, at, Outs(k), start);
    Disjoint(from, at);
    ghost var cols;
    r, cols := SampleLoop(ops, k, packet, from, at, total, cancel, view, base, start);
    FilledKeepsKinds(packet.queryCount, base, packet.buffers, packet.slotIndices, at, Outs(k), cols);
    FilledView(packet.queryCount, base, packet.buffers, packet.slotIndices, at, Outs(k), cols);
    if r.Ok? {
      ComputedAll(ops, k, view, cols, total);
    }
  }

  method SampleLoop(ops: Ops, k: Kernel, packet: JobPacket, from: seq<nat>, at: seq<nat>, total: nat,
                    cancel: CancelFlag, ghost view: View, ghost base: seq<PacketBuffer>, ghost start: seq<seq<f32>>)
    returns (r: Result<()>, ghost cols: seq<seq<f32>>)
    requires packet.Valid() && packet.isDirty && !k.GridInit? && Ready(k) && packet.buffers == base
    requires NoDuplicates(at) && forall x :: x in from ==> x !in at
    requires Located(view, base, Ins(k), from) && Filled(base, base, at, Outs(k), start)
    requires Columnar(start, |Outs(k)|, total)
    modifies packet`buffers, cancel
    ensures packet.Valid() && cancel.polls >= old(cancel.polls)
    ensures r.Ok? ==> Clear(cancel, old(cancel.polls))
    ensures r.Ok? ==> cancel.polls == old(cancel.polls) + PollCount(PollEvery(k), total)
    ensures Filled(base, packet.buffers, at, Outs(k), cols)
    ensures r.Ok? ==> Computed(ops, k, view, total, cols, total) && Succeeds(ops, k, view, total)
    ensures r.Err? ==>
      Interrupted(r.error, cancel, old(cancel.polls)) || (r.error == Panicked && !Succeeds(ops, k, view, total))
  {
    hide SampleOut, Args, Outputs, Ins, Outs, ClampPanics, ClearBetween, PollEvery, JobPacket.Abstract;
    assert PollCount(PollEvery(k), 0) == 0;
    hide PollCount;
    assert ClearBetween(cancel.sees, cancel.polls, cancel.polls) by { ClearNothing(cancel.sees, cancel.polls); }
    cols := start;
    for index := 0 to total
      invariant packet.Valid() && packet.isDirty && cancel.polls >= old(cancel.polls)
      invariant Clear(cancel, old(cancel.polls))
      invariant Filled(base, packet.buffers, at, Outs(k), cols)
      invariant Computed(ops, k, view, index, cols, total)
      invariant index > 0 ==> !ClampPanics(ops, k)
      invariant cancel.polls == old(cancel.polls) + PollCount(PollEvery(k), index)
    {
      StillLocated(view, base, packet.buffers, Ins(k), from, at, Outs(k), cols);
      var args := Gather(packet.buffers, from, view, Ins(k), index);
      if args.None? {
        NotReadable(view, Ins(k), index + 1, total);
        return Err(Panicked), cols;
      }
      if ClampPanics(ops, k) {
        return Err(Panicked), cols;
      }
      ComputedStep(ops, k, view, index, cols, total);
      Scatter(packet, at, index, Outputs(ops, k, args.value), base, Outs(k), cols);
      cols := PutPoint(cols, index, Outputs(ops, k, args.value));
      if index % PollEvery(k) == 0 {
        var stop := cancel.IsCancelled();
        if stop {
          return Err(Cancelled), cols;
        }
        ClearNext(cancel.sees, old(cancel.polls), cancel.polls - 1);
      }
      PollNext(PollEvery(k), index);
    }
    return Ok(()), cols;
  }

  /** Writing outputs leaves the input buffers where they are. */
  lemma StillLocated(view: View, base: seq<PacketBuffer>, now: seq<PacketBuffer>, ins: seq<u16>, from: seq<nat>,
                     at: seq<nat>, outs: seq<u16>, cols: seq<seq<f32>>)
    requires Located(view, base, ins, from) && Filled(base, now, at, outs, cols) && forall x :: x in from ==> x !in at
    ensures Located(view, now, ins, from)
  {
    forall a | 0 <= a < |ins| ensures now[from[a]] == base[from[a]] {
      assert from[a] in from;
    }
  }

  lemma Disjoint<T>(from: seq<T>, at: seq<T>)
    requires NoDuplicates(from + at)
    ensures NoDuplicates(at)
    ensures forall x :: x in from ==> x !in at
  {
    var all := from + at;
    forall i, j | 0 <= i < |from| && 0 <= j < |at| ensures from[i] != at[j] {
      assert all[i] == from[i] && all[|from| + j] == at[j];
    }
    forall i, j | 0 <= i < j < |at| ensures at[i] != at[j] {
      assert all[|from| + i] == at[i] && all[|from| + j] == at[j];
    }
  }

  lemma NotReadable(view: View, slots: seq<u16>, n: nat, total: nat)
    requires n <= total && !Readable(view, slots, n)
    ensures !Readable(view, slots, total)
  {}

  method RunSized(ops: Ops, k: Kernel, packet: JobPacket, total: nat, cancel: CancelFlag) returns (r: Result<()>)
    requires packet.Valid() && packet.isDirty && !k.GridInit?
    requires forall s :: s in Outs(k) ==>
      s in packet.Abstract().data && packet.Abstract().data[s].F32? && packet.Abstract().data[s].Len() == total
    modifies packet`buffers, cancel
    ensures packet.Valid() && cancel.polls >= old(cancel.polls)
    ensures r.Ok? ==> Clear(cancel, old(cancel.polls))
    ensures KindsKept(old(packet.Abstract()), packet.Abstract())
    ensures r.Ok? ==> Compute(ops, k, old(packet.Abstract()), total) == Ok(packet.Abstract())
    ensures r.Err? ==>
      Interrupted(r.error, cancel, old(cancel.polls)) || Compute(ops, k, old(packet.Abstract()), total) == Err(r.error)
  {
    hide WithColumns, Columns, ClampPanics, Ins, Outs;
    if !Ready(k) {
      return Err(Panicked);
    }
    var indices :- packet.WithSlices(Ins(k) + Outs(k), KindF32);
    LocatedParts(packet.Abstract(), packet.buffers, Ins(k), Outs(k), indices);
    var from, at := indices[..|Ins(k)|], indices[|Ins(k)|..];
    assert from + at == indices;
    r := FillSamples(ops, k, packet, from, at, total, cancel);
  }

  /** Warp, sample and combine kernels. */
  method RunPointwise(ops: Ops, k: Kernel, packet: JobPacket, cancel: CancelFlag) returns (r: Result<()>)
    requires packet.Valid() && k.Shaped() && !k.GridInit?
    modifies packet, cancel
    ensures packet.Valid() && cancel.polls >= old(cancel.polls)
    ensures r.Ok? ==> Clear(cancel, old(cancel.polls))
    ensures FloatKernel(k) && Kinded(old(packet.Abstract())) ==> Kinded(packet.Abstract())
    ensures r.Ok? ==> Pointwise(ops, k, old(packet.Abstract())) == Ok(packet.Abstract())
    ensures r.Err? ==>
      Interrupted(r.error, cancel, old(cancel.polls)) || Pointwise(ops, k, old(packet.Abstract())) == Err(r.error)
  {
    hide Compute, EnsureAll, Outs, Kinded, KindsKept, JobPacket.Valid, JobPacket.Abstract;
    var offsets :- packet.Slice(SLOT_QUERY_OFFSETS, KindU32);
    var total := TotalSamples(offsets.u32s);
    EnsureAllAt(packet.Abstract(), Outs(k), total);
    assert Outs(k) != [] by { SomeOutput(k); }
    EnsureOutputs(packet, Outs(k), total);
    ghost var sized := packet.Abstract();
    r := RunSized(ops, k, packet, total, cancel);
    if FloatKernel(k) && Kinded(old(packet.Abstract())) {
      EnsureAllKinded(old(packet.Abstract()), Outs(k), total);
      KeptKinded(sized, packet.Abstract());
    }
  }

  lemma SomeOutput(k: Kernel)
    requires k.Shaped() && !k.GridInit?
    ensures Outs(k) != []
  {}

  lemma LocatedParts(view: View, buffers: seq<PacketBuffer>, ins: seq<u16>, outs: seq<u16>, indices: seq<nat>)
    requires SliceError(view, KindF32, ins + outs, |ins + outs|).None?
    requires |indices| == |ins + outs|
    requires forall i :: 0 <= i < |indices| ==>
      indices[i] < |buffers| && buffers[indices[i]] == PacketBuffer((ins + outs)[i], view.data[(ins + outs)[i]])
    ensures Located(view, buffers, ins, indices[..|ins|]) && Located(view, buffers, outs, indices[|ins|..])
    ensures NoDuplicates(outs)
  {
    var slots := ins + outs;
    assert forall a :: 0 <= a < |ins| ==> slots[a] == ins[a];
    assert forall c :: 0 <= c < |outs| ==> slots[|ins| + c] == outs[c] && indices[|ins|..][c] == indices[|ins| + c];
  }

  // ---------------------------------------------------------------- grid initialisation

  lemma GridIndexSteps(w: nat, h: nat, y: nat, z: nat)
    ensures GridIndex(w, h, 0, y + 1, z) == GridIndex(w, h, 0, y, z) + w
    ensures GridIndex(w, h, 0, 0, z + 1) == GridIndex(w, h, 0, h, z)
    ensures GridIndex(w, h, 0, 0, z) == w * h * z
  {
    assert (z * h + y + 1) * w == (z * h + y) * w + w;
    assert (z + 1) * h == z * h + h;
    assert z * h * w == w * h * z by { assert z * h * w == w * (z * h) == w * (h * z) == w * h * z; }
  }

  lemma GridStep(ops: Ops, dims: nat, box: Box, offset: nat, x: nat, y: nat, z: nat,
                 start: seq<seq<f32>>, cols: seq<seq<f32>>, len: nat)
    requires 2 <= dims <= 3 && |box.origin| == |box.step| == dims && Columnar(start, dims, len)
    requires x < box.width && y < box.height && z < box.depth
    requires GridColumns(ops, dims, box, offset, GridIndex(box.width, box.height, x, y, z), start, len) == Some(cols)
    ensures var n := GridIndex(box.width, box.height, x, y, z);
      GridColumns(ops, dims, box, offset, n + 1, start, len) ==
        if offset + n < len then Some(PutPoint(cols, offset + n, PointOf(ops, dims, box, x, y, z))) else None
  {
    GridIndexBijective(box.width, box.height, box.depth, x, y, z);
  }

  lemma {:induction false} GridStuck(ops: Ops, dims: nat, box: Box, offset: nat, n: nat, m: nat, start: seq<seq<f32>>,
                                     len: nat)
    requires 2 <= dims <= 3 && |box.origin| == |box.step| == dims && Columnar(start, dims, len)
    requires n <= m && GridColumns(ops, dims, box, offset, n, start, len).None?
    ensures GridColumns(ops, dims, box, offset, m, start, len).None?
    decreases m
  {
    if n < m {
      GridStuck(ops, dims, box, offset, n, m - 1, start, len);
    }
  }

  /** The base-coordinate buffers being filled, tied to the columns written so far. */
  ghost predicate Filling(packet: JobPacket, base: seq<PacketBuffer>, at: seq<nat>, slots: seq<u16>,
                          cols: seq<seq<f32>>)
    reads packet
  {
    packet.Valid() && packet.isDirty && NoDuplicates(at) && Filled(base, packet.buffers, at, slots, cols)
  }

  method FillRow(ops: Ops, dims: nat, box: Box, offset: nat, y: nat, z: nat, packet: JobPacket, at: seq<nat>, len: nat,
                 ghost base: seq<PacketBuffer>, ghost slots: seq<u16>, ghost start: seq<seq<f32>>,
                 ghost was: seq<seq<f32>>)
    returns (r: Result<()>, ghost cols: seq<seq<f32>>)
    requires 2 <= dims <= 3 && |box.origin| == |box.step| == dims == |at| && Columnar(start, dims, len)
    requires y < box.height && z < box.depth
    requires Filling(packet, base, at, slots, was)
    requires GridColumns(ops, dims, box, offset, GridIndex(box.width, box.height, 0, y, z), start, len) == Some(was)
    modifies packet`buffers
    ensures Filling(packet, base, at, slots, cols)
    ensures r.Ok? ==>
      GridColumns(ops, dims, box, offset, GridIndex(box.width, box.height, 0, y + 1, z), start, len) == Some(cols)
    ensures r.Err? ==> r.error == Panicked && GridColumns(ops, dims, box, offset, box.Count(), start, len).None?
  {
    hide PointOf, GridColumns, Filled, GridIndex;
    cols := was;
    for x := 0 to box.width
      invariant Filling(packet, base, at, slots, cols)
      invariant GridColumns(ops, dims, box, offset, GridIndex(box.width, box.height, x, y, z), start, len) == Some(cols)
    {
      GridStep(ops, dims, box, offset, x, y, z, start, cols, len);
      var index := offset + GridIndex(box.width, box.height, x, y, z);
      if index >= len {
        GridIndexBijective(box.width, box.height, box.depth, x, y, z);
        GridStuck(ops, dims, box, offset, index - offset + 1, box.Count(), start, len);
        return Err(Panicked), cols;
      }
      Scatter(packet, at, index, PointOf(ops, dims, box, x, y, z), base, slots, cols);
      cols := PutPoint(cols, index, PointOf(ops, dims, box, x, y, z));
      NextCell(box.width, box.height, x, y, z);
    }
    RowEnd(box.width, box.height, y, z);
    return Ok(()), cols;
  }

  lemma NextCell(w: nat, h: nat, x: nat, y: nat, z: nat)
    ensures GridIndex(w, h, x + 1, y, z) == GridIndex(w, h, x, y, z) + 1
  {}

  lemma RowEnd(w: nat, h: nat, y: nat, z: nat)
    ensures GridIndex(w, h, w, y, z) == GridIndex(w, h, 0, y + 1, z)
  {
    GridIndexSteps(w, h, y, z);
  }

  /** One query's grid: z, then y, then x, polling the cancel flag once in a while. */
  method FillGrid(ops: Ops, dims: nat, box: Box, offset: nat, packet: JobPacket, at: seq<nat>, len: nat,
                  cancel: CancelFlag,
                  ghost base: seq<PacketBuffer>, ghost slots: seq<u16>, ghost start: seq<seq<f32>>)
    returns (r: Result<()>, ghost cols: seq<seq<f32>>)
    requires 2 <= dims <= 3 && |box.origin| == |box.step| == dims == |at| && Columnar(start, dims, len)
    requires Filling(packet, base, at, slots, start)
    modifies packet`buffers, cancel
    ensures Filling(packet, base, at, slots, cols) && cancel.polls >= old(cancel.polls)
    ensures r.Ok? ==> Clear(cancel, old(cancel.polls))
    ensures r.Ok? ==> GridColumns(ops, dims, box, offset, box.Count(), start, len) == Some(cols)
    ensures r.Ok? ==> CellsLaid(ops, dims, box, offset, cols)
    ensures r.Ok? ==>
      cancel.polls == old(cancel.polls) + RowPolls(if dims == 2 then 32 else 16, box.height, box.depth)
    ensures r.Err? ==>
      Interrupted(r.error, cancel, old(cancel.polls))
        || (r.error == Panicked && GridColumns(ops, dims, box, offset, box.Count(), start, len).None?)
  {
    hide GridColumns, Filled, GridIndex, CellsLaid, PollCount;
    cols := start;
    GridStart(ops, dims, box, offset, start, len);
    var every := if dims == 2 then 32 else 16;
    for z := 0 to box.depth
      invariant Filling(packet, base, at, slots, cols) && cancel.polls >= old(cancel.polls)
      invariant Clear(cancel, old(cancel.polls))
      invariant GridColumns(ops, dims, box, offset, GridIndex(box.width, box.height, 0, 0, z), start, len) == Some(cols)
      invariant cancel.polls == old(cancel.polls) + RowPolls(every, box.height, z)
    {
      ghost var since := cancel.polls;
      NoPolls(every);
      for y := 0 to box.height
        invariant cancel.polls == since + PollCount(every, y)
        invariant Filling(packet, base, at, slots, cols) && cancel.polls >= old(cancel.polls)
        invariant Clear(cancel, old(cancel.polls))
        invariant GridColumns(ops, dims, box, offset, GridIndex(box.width, box.height, 0, y, z), start, len)
          == Some(cols)
      {
        r, cols := FillRow(ops, dims, box, offset, y, z, packet, at, len, base, slots, start, cols);
        if r.Err? {
          return;
        }
        if y % every == 0 {
          var stop := cancel.IsCancelled();
          if stop {
            return Err(Cancelled), cols;
          }
        }
        PollNext(every, y);
      }
      GridIndexSteps(box.width, box.height, 0, z);
    }
    GridIndexSteps(box.width, box.height, 0, box.depth);
    GridCells(ops, dims, box, offset, start, len, cols);
    return Ok(()), cols;
  }

  /** Cell (x, y, z), behind the offset, has the coordinate of each axis from its own index on that axis. */
  ghost predicate CellLaid(
    ops: Ops, dims: nat, box: Box, offset: nat, cols: seq<seq<f32>>, x: nat, y: nat, z: nat)
    requires 2 <= dims <= 3 && |box.origin| == |box.step| == dims == |cols|
  {
    var at := offset + ((z * box.height + y) * box.width + x);
    && (forall a :: 0 <= a < dims ==> at < |cols[a]|)
    && cols[0][at] == ops.add(box.origin[0], ops.mul(ops.ofIndex(x), box.step[0]))
    && cols[1][at] == ops.add(box.origin[1], ops.mul(ops.ofIndex(y), box.step[1]))
    && (dims == 3 ==> cols[2][at] == ops.add(box.origin[2], ops.mul(ops.ofIndex(z), box.step[2])))
  }

  ghost predicate CellsLaid(ops: Ops, dims: nat, box: Box, offset: nat, cols: seq<seq<f32>>) {
    && 2 <= dims <= 3 && |box.origin| == |box.step| == dims == |cols|
    && forall x, y, z: nat :: 0 <= x < box.width && 0 <= y < box.height && z < box.depth ==>
         CellLaid(ops, dims, box, offset, cols, x, y, z)
  }

  lemma {:induction false} CellAt(ops: Ops, dims: nat, box: Box, offset: nat, n: nat, start: seq<seq<f32>>, len: nat,
                                  cols: seq<seq<f32>>, i: nat, a: nat)
    requires 2 <= dims <= 3 && |box.origin| == |box.step| == dims && Columnar(start, dims, len)
    requires GridColumns(ops, dims, box, offset, n, start, len) == Some(cols) && i < n && a < dims
    ensures offset + i < |cols[a]| && cols[a][offset + i] == PointAt(ops, dims, box, i)[a]
  {
    hide PointAt;
    if i < n - 1 {
      CellAt(ops, dims, box, offset, n - 1, start, len, GridColumns(ops, dims, box, offset, n - 1, start, len).value,
             i, a);
    }
  }

  lemma GridCells(ops: Ops, dims: nat, box: Box, offset: nat, start: seq<seq<f32>>, len: nat, cols: seq<seq<f32>>)
    requires 2 <= dims <= 3 && |box.origin| == |box.step| == dims && Columnar(start, dims, len)
    requires GridColumns(ops, dims, box, offset, box.Count(), start, len) == Some(cols)
    ensures CellsLaid(ops, dims, box, offset, cols)
  {
    hide GridColumns;
    forall x, y, z: nat | 0 <= x < box.width && 0 <= y < box.height && z < box.depth
      ensures CellLaid(ops, dims, box, offset, cols, x, y, z)
    {
      GridIndexBijective(box.width, box.height, box.depth, x, y, z);
      var i := GridIndex(box.width, box.height, x, y, z);
      assert i == (z * box.height + y) * box.width + x;
      forall a | 0 <= a < dims
        ensures offset + i < |cols[a]| && cols[a][offset + i] == PointAt(ops, dims, box, i)[a]
      {
        CellAt(ops, dims, box, offset, box.Count(), start, len, cols, i, a);
      }
    }
  }

  lemma GridStart(ops: Ops, dims: nat, box: Box, offset: nat, start: seq<seq<f32>>, len: nat)
    requires 2 <= dims <= 3 && |box.origin| == |box.step| == dims && Columnar(start, dims, len)
    ensures GridColumns(ops, dims, box, offset, GridIndex(box.width, box.height, 0, 0, 0), start, len) == Some(start)
  {}

  lemma {:induction false} BatchStuck(ops: Ops, dims: nat, meta: seq<u32>, floats: seq<f32>, offsets: seq<u32>,
                                      n: nat, m: nat, start: seq<seq<f32>>, len: nat)
    requires 2 <= dims <= 3 && n <= m <= |offsets| && Columnar(start, dims, len)
    requires BatchColumns(ops, dims, meta, floats, offsets, n, start, len).None?
    ensures BatchColumns(ops, dims, meta, floats, offsets, m, start, len).None?
    decreases m
  {
    if n < m {
      BatchStuck(ops, dims, meta, floats, offsets, n, m - 1, start, len);
    }
  }

  method FillBatch(ops: Ops, dims: nat, meta: seq<u32>, floats: seq<f32>, offsets: seq<u32>, count: nat,
                   packet: JobPacket,
                   at: seq<nat>, len: nat, cancel: CancelFlag,
                   ghost base: seq<PacketBuffer>, ghost slots: seq<u16>, ghost start: seq<seq<f32>>)
    returns (r: Result<()>, ghost cols: seq<seq<f32>>)
    requires 2 <= dims <= 3 && |at| == dims && count <= |offsets| && Columnar(start, dims, len)
    requires Filling(packet, base, at, slots, start)
    modifies packet`buffers, cancel
    ensures Filling(packet, base, at, slots, cols) && cancel.polls >= old(cancel.polls)
    ensures r.Ok? ==> Clear(cancel, old(cancel.polls))
    ensures r.Ok? ==> BatchColumns(ops, dims, meta, floats, offsets, count, start, len) == Some(cols)
    ensures r.Err? ==>
      Interrupted(r.error, cancel, old(cancel.polls))
        || (r.error == Panicked && BatchColumns(ops, dims, meta, floats, offsets, count, start, len).None?)
  {
    hide GridColumns, Filled, StoredBox;
    cols := start;
    for q := 0 to count
      invariant Filling(packet, base, at, slots, cols) && cancel.polls >= old(cancel.polls)
      invariant Clear(cancel, old(cancel.polls))
      invariant BatchColumns(ops, dims, meta, floats, offsets, q, start, len) == Some(cols)
    {
      var box := StoredBox(dims, meta, floats, q);
      if box.None? {
        BatchStuck(ops, dims, meta, floats, offsets, q + 1, count, start, len);
        return Err(Panicked), cols;
      }
      r, cols := FillGrid(ops, dims, box.value, offsets[q], packet, at, len, cancel, base, slots, cols);
      if r.Err? {
        if r.error == Panicked {
          BatchStuck(ops, dims, meta, floats, offsets, q + 1, count, start, len);
        }
        return;
      }
    }
    return Ok(()), cols;
  }

  method RunGridInit(ops: Ops, dim: GraphDimension, packet: JobPacket, cancel: CancelFlag) returns (r: Result<()>)
    requires packet.Valid()
    modifies packet, cancel
    ensures packet.Valid() && cancel.polls >= old(cancel.polls)
    ensures r.Ok? ==> Clear(cancel, old(cancel.polls))
    ensures Kinded(old(packet.Abstract())) ==> Kinded(packet.Abstract())
    ensures r.Ok? ==> GridInited(ops, dim, old(packet.Abstract())) == Ok(packet.Abstract())
    ensures r.Err? ==>
      Interrupted(r.error, cancel, old(cancel.polls)) || GridInited(ops, dim, old(packet.Abstract())) == Err(r.error)
  {
    hide EnsureAll, Initialise, Kinded, KindsKept, JobPacket.Valid, JobPacket.Abstract, Sized;
    var meta :- packet.Slice(SLOT_QUERY_META, KindU32);
    var floats :- packet.Slice(SLOT_QUERY_F32, KindF32);
    var offsets :- packet.Slice(SLOT_QUERY_OFFSETS, KindU32);
    var total := TotalSamples(offsets.u32s);
    var count := if packet.QueryCount() < |offsets.u32s| then packet.QueryCount() else |offsets.u32s|;
    EnsureAllAt(packet.Abstract(), BaseSlots(dim.Arity()), total);
    EnsureOutputs(packet, BaseSlots(dim.Arity()), total);
    ghost var sized := packet.Abstract();
    r := InitSized(ops, dim.Arity(), meta.u32s, floats.f32s, offsets.u32s, count, packet, total, cancel);
    if Kinded(old(packet.Abstract())) {
      EnsureAllKinded(old(packet.Abstract()), BaseSlots(dim.Arity()), total);
      KeptKinded(sized, packet.Abstract());
    }
  }

  method InitSized(ops: Ops, dims: nat, meta: seq<u32>, floats: seq<f32>, offsets: seq<u32>, count: nat,
                   packet: JobPacket, total: nat, cancel: CancelFlag) returns (r: Result<()>)
    requires packet.Valid() && packet.isDirty && 2 <= dims <= 3 && count <= |offsets|
    requires Sized(packet.Abstract(), BaseSlots(dims), total)
    modifies packet`buffers, cancel
    ensures packet.Valid() && cancel.polls >= old(cancel.polls)
    ensures r.Ok? ==> Clear(cancel, old(cancel.polls))
    ensures KindsKept(old(packet.Abstract()), packet.Abstract())
    ensures r.Ok? ==>
      Initialise(ops, dims, meta, floats, offsets, count, old(packet.Abstract()), total) == Ok(packet.Abstract())
    ensures r.Err? ==>
      Interrupted(r.error, cancel, old(cancel.polls))
        || Initialise(ops, dims, meta, floats, offsets, count, old(packet.Abstract()), total) == Err(r.error)
  {
    hide BatchColumns, WithColumns, KindsKept, GridColumns, Clear;
    ghost var slots, view, base := BaseSlots(dims), packet.Abstract(), packet.buffers;
    ghost var start := FloatColumns(view, slots, total);
    NoSliceError(view, slots);
    var granted := packet.WithSlices(BaseSlots(dims), KindF32);
    var at := granted.value;
    assert Filled(base, packet.buffers, at, slots, start);
    ghost var cols;
    r, cols := FillBatch(ops, dims, meta, floats, offsets, count, packet, at, total, cancel, base, slots, start);
    FilledView(packet.queryCount, base, packet.buffers, packet.slotIndices, at, slots, cols);
    FilledKeepsKinds(packet.queryCount, base, packet.buffers, packet.slotIndices, at, slots, cols);
  }

  lemma NoSliceError(view: View, slots: seq<u16>)
    requires NoDuplicates(slots) && forall a :: 0 <= a < |slots| ==> slots[a] in view.data && view.data[slots[a]].F32?
    ensures SliceError(view, KindF32, slots, |slots|).None?
  {}

  method Run(ops: Ops, k: Kernel, packet: JobPacket, cancel: CancelFlag) returns (r: Result<()>)
    requires packet.Valid() && k.Shaped()
    modifies packet, cancel
    ensures packet.Valid() && cancel.polls >= old(cancel.polls)
    ensures r.Ok? ==> Clear(cancel, old(cancel.polls))
    ensures FloatKernel(k) && Kinded(old(packet.Abstract())) ==> Kinded(packet.Abstract())
    ensures r.Ok? ==> RunKernel(ops, k, old(packet.Abstract())) == Ok(packet.Abstract())
    ensures r.Err? ==>
      Interrupted(r.error, cancel, old(cancel.polls)) || RunKernel(ops, k, old(packet.Abstract())) == Err(r.error)
  {
    match k
    case GridInit(dim) => r := RunGridInit(ops, dim, packet, cancel);
    case _ => r := RunPointwise(ops, k, packet, cancel);
  }
}
