/** What one kernel run does to the buffers that carry per-sample values. */
module Carry {
  import opened Common
  import opened Model
  import opened Semantics
  import opened Packet
  import opened Runtime
  import opened Kernels

  /** The slots hold, column by column, the given rows: row i is sample i. */
  ghost predicate Carries(view: View, slots: seq<u16>, rows: seq<seq<f32>>) {
    forall a :: 0 <= a < |slots| ==> CarriesColumn(view, slots[a], rows, a)
  }

  ghost predicate CarriesColumn(view: View, slot: u16, rows: seq<seq<f32>>, a: nat) {
    && slot in view.data && view.data[slot].F32? && |view.data[slot].f32s| == |rows|
    && forall i :: 0 <= i < |rows| ==> a < |rows[i]| && view.data[slot].f32s[i] == rows[i][a]
  }

  ghost predicate Rows(rows: seq<seq<f32>>, n: nat, width: nat) {
    |rows| == n && forall i :: 0 <= i < n ==> |rows[i]| == width
  }

  /** The packet's offsets buffer says there are total samples. */
  ghost predicate HasTotal(view: View, total: nat) {
    && SLOT_QUERY_OFFSETS in view.data && view.data[SLOT_QUERY_OFFSETS].U32?
    && TotalSamples(view.data[SLOT_QUERY_OFFSETS].u32s) == total
  }

  /** Nothing outside outs changed, and outs are present. */
  ghost predicate OnlyChanged(view: View, now: View, outs: seq<u16>) {
    && now.queryCount == view.queryCount
    && (forall s :: s in now.data <==> s in view.data || s in outs)
    && (forall s :: s in view.data && s !in outs ==> now.data[s] == view.data[s])
  }

  lemma CarriesFrame(view: View, now: View, outs: seq<u16>, slots: seq<u16>, rows: seq<seq<f32>>)
    requires OnlyChanged(view, now, outs) && Carries(view, slots, rows)
    requires forall a :: 0 <= a < |slots| ==> slots[a] !in outs
    ensures Carries(now, slots, rows)
  {
    forall a | 0 <= a < |slots| ensures CarriesColumn(now, slots[a], rows, a) {
      assert CarriesColumn(view, slots[a], rows, a);
    }
  }

  lemma EnsureOnlyChanges(view: View, slots: seq<u16>, total: nat)
    ensures OnlyChanged(view, EnsureAll(view, slots, total), slots)
  {
    EnsureAllAt(view, slots, total);
    assert forall s :: s in EnsureAll(view, slots, total).data <==> s in EnsureAll(view, slots, total).data.Keys;
  }

  lemma CarriedArgs(view: View, slots: seq<u16>, rows: seq<seq<f32>>)
    requires Carries(view, slots, rows) && Rows(rows, |rows|, |slots|)
    ensures Readable(view, slots, |rows|)
    ensures forall i :: 0 <= i < |rows| ==> Args(view, slots, i) == rows[i]
  {
    forall s | s in slots ensures s in view.data && view.data[s].F32? && |view.data[s].f32s| >= |rows| {
      var a :| 0 <= a < |slots| && slots[a] == s;
      assert CarriesColumn(view, slots[a], rows, a);
    }
    forall i | 0 <= i < |rows| ensures Args(view, slots, i) == rows[i] {
      forall a | 0 <= a < |slots| ensures Args(view, slots, i)[a] == rows[i][a] {
        assert CarriesColumn(view, slots[a], rows, a);
      }
    }
  }

  /** Rows of outputs from rows of arguments. */
  ghost function OutputRows(ops: Ops, k: Kernel, args: seq<seq<f32>>): (r: seq<seq<f32>>)
    requires !k.GridInit? && Ready(k) && Rows(args, |args|, |Ins(k)|)
    ensures Rows(r, |args|, |Outs(k)|)
    ensures forall i :: 0 <= i < |args| ==> r[i] == Outputs(ops, k, args[i])
  {
    seq(|args|, i requires 0 <= i < |args| => Outputs(ops, k, args[i]))
  }

  /** The sized view: outputs allocated, everything else as before. */
  lemma SizedRequest(k: Kernel, view: View, total: nat, args: seq<seq<f32>>)
    requires !k.GridInit? && Ready(k) && NoDuplicates(Ins(k) + Outs(k))
    requires Carries(view, Ins(k), args) && Rows(args, total, |Ins(k)|)
    ensures var now := EnsureAll(view, Outs(k), total);
      && Carries(now, Ins(k), args) && Sized(now, Outs(k), total) && OnlyChanged(view, now, Outs(k))
      && SliceError(now, KindF32, Ins(k) + Outs(k), |Ins(k) + Outs(k)|).None?
  {
    hide Ins, Outs, EnsureAll;
    var now := EnsureAll(view, Outs(k), total);
    var slots := Ins(k) + Outs(k);
    EnsureAllAt(view, Outs(k), total);
    EnsureOnlyChanges(view, Outs(k), total);
    forall a | 0 <= a < |Ins(k)| ensures Ins(k)[a] !in Outs(k) {
      forall c | 0 <= c < |Outs(k)| ensures Ins(k)[a] != Outs(k)[c] {
        assert slots[a] == Ins(k)[a] && slots[|Ins(k)| + c] == Outs(k)[c];
      }
    }
    CarriesFrame(view, now, Outs(k), Ins(k), args);
    forall i | 0 <= i < |slots| ensures slots[i] in now.data && now.data[slots[i]].Kind() == KindF32 {
      if i < |Ins(k)| {
        assert CarriesColumn(now, Ins(k)[i], args, i);
      } else {
        assert slots[i] == Outs(k)[i - |Ins(k)|];
      }
    }
  }

  /** A kernel whose inputs carry args runs, and its outputs carry the pointwise results; nothing else changes. */
  lemma KernelRuns(ops: Ops, k: Kernel, view: View, total: nat, args: seq<seq<f32>>)
    requires !k.GridInit? && Ready(k) && NoDuplicates(Ins(k) + Outs(k))
    requires HasTotal(view, total) && Carries(view, Ins(k), args) && Rows(args, total, |Ins(k)|)
    requires total > 0 ==> !ClampPanics(ops, k)
    ensures Pointwise(ops, k, view).Ok?
    ensures OnlyChanged(view, Pointwise(ops, k, view).value, Outs(k))
    ensures Carries(Pointwise(ops, k, view).value, Outs(k), OutputRows(ops, k, args))
  {
    hide Ins, Outs, EnsureAll, SampleOut, ClampPanics, WithColumns, Columns, Outputs;
    SizedRequest(k, view, total, args);
    var now := EnsureAll(view, Outs(k), total);
    CarriedArgs(now, Ins(k), args);
    var cols := Columns(ops, k, now, total);
    Disjoint(Ins(k), Outs(k));
    WithColumnsAt(now, Outs(k), cols);
    var done := WithColumns(now, Outs(k), cols);
    assert Pointwise(ops, k, view) == Ok(done);
    forall c | 0 <= c < |Outs(k)| ensures CarriesColumn(done, Outs(k)[c], OutputRows(ops, k, args), c) {
      assert cols[c] == Column(ops, k, now, total, c);
    }
  }
}
