/** The tasks of one async job, on its own packet. */
module JobExecution {
  import opened Common
  import opened Model
  import opened Semantics
  import opened Packet
  import opened Grid
  import opened Runtime
  import opened Backend
  import opened Inline
  import opened StackCore
  import opened StackProtocol
  import Kernels

  class Execution {
    const ops: Ops
    const debug: bool
    const version: Version
    const queries: seq<ChunkQuery>
    const cancel: CancelFlag
    var record: Record
    var packet: JobPacket?

    ghost predicate Ready() {
      && AllValid(queries) && |version.stages| == |version.plan.stages|
      && forall k :: 0 <= k < |version.stages| ==> Shaped(version.stages[k])
    }

    constructor (ops: Ops, debug: bool, version: Version, queries: seq<ChunkQuery>, cancel: CancelFlag)
      ensures this.ops == ops && this.debug == debug && this.version == version && this.queries == queries
      ensures this.cancel == cancel && record == Pending && packet == null
    {
      this.ops, this.debug, this.version, this.queries, this.cancel := ops, debug, version, queries, cancel;
      record, packet := Pending, null;
    }

    /** What the packet slot holds. */
    ghost function Held(): View
      reads this, packet
    {
      if packet != null && packet.Valid() then packet.Abstract() else View(0, map[])
    }

    /** The packet encoding starts from. */
    ghost function CheckedOut(view: View): View {
      Loaded(Cleared(view), version.plan.statics)
    }

    /** The debug check is on, and this error can be its own. */
    ghost predicate Denied(error: BraidError) {
      debug && error != BraidError.Cancelled
    }

    /** encode_step: mark the record, check out and fill a packet, keep it. */
    method EncodeStep(pooled: JobPacket) returns (r: Result<StackProtocol.Task>)
      requires Ready() && pooled.Valid() && packet == null
      modifies this`record, this`packet, pooled, cancel
      ensures pooled.Valid() && cancel.polls == old(cancel.polls) + 1
      ensures KindedPlan(version.plan, version.stages) && Kinded(old(pooled.Abstract())) ==> Kinded(pooled.Abstract())
      ensures old(cancel.Set()) ==> r == Err(BraidError.Cancelled) && record == old(record)
      ensures !old(cancel.Set()) ==> record == Active
      ensures r.Ok? ==> packet == pooled && r.value == NextTask(EncodeTask, |version.stages|)
      ensures r.Ok? ==>
        Encoded(version.plan.meta.dimension, queries, CheckedOut(old(pooled.Abstract()))) == Ok(pooled.Abstract())
      ensures r.Err? ==> packet == null
      ensures r.Err? && !old(cancel.Set()) ==>
        var encoded := Encoded(version.plan.meta.dimension, queries, CheckedOut(old(pooled.Abstract())));
        encoded == Err(r.error) || (Denied(r.error) && encoded.Ok? && !PacketValid(version.plan.buffers, encoded.value))
    {
      hide Encoded, JobPacket.Valid, JobPacket.Abstract, Kinded, FloatStage;
      var stop := cancel.IsCancelled();
      if stop {
        return Err(BraidError.Cancelled);
      }
      record := Active;
      Checkout(version.plan.statics, pooled);
      var encode := EncodeBatch(version.plan.meta.dimension, queries, pooled);
      if encode.Err? {
        ClearPacket(pooled);
        return Err(encode.error);
      }
      var valid := Check(debug, version.plan, pooled);
      if valid.Err? {
        ClearPacket(pooled);
        return Err(valid.error);
      }
      packet := pooled;
      return Ok(NextTask(EncodeTask, |version.stages|));
    }

    /** stage_step: run one stage in place and name the next task. */
    method StageStep(k: nat) returns (r: Result<StackProtocol.Task>)
      requires Ready() && packet != null && packet.Valid()
      modifies packet, cancel
      ensures packet.Valid() && cancel.polls > old(cancel.polls)
      ensures KindedPlan(version.plan, version.stages) && Kinded(old(packet.Abstract())) ==> Kinded(packet.Abstract())
      ensures old(cancel.Set()) ==> r == Err(BraidError.Cancelled) && packet.Abstract() == old(packet.Abstract())
      ensures old(cancel.Set()) ==> cancel.polls == old(cancel.polls) + 1
      ensures r.Ok? ==> k < |version.stages| && r.value == NextTask(StageTask(k), |version.stages|)
      ensures r.Ok? ==> RunStage(ops, version.stages[k], old(packet.Abstract())) == Ok(packet.Abstract())
      ensures r.Err? && !old(cancel.Set()) && k < |version.stages| ==>
        || Kernels.Interrupted(r.error, cancel, old(cancel.polls) + 1)
        || RunStage(ops, version.stages[k], old(packet.Abstract())) == Err(r.error)
        || (Denied(r.error) && RunStage(ops, version.stages[k], old(packet.Abstract())) == Ok(packet.Abstract())
            && !PacketValid(version.plan.buffers, packet.Abstract()))
    {
      hide RunStage, PacketValid, JobPacket.Valid, JobPacket.Abstract, Kernels.Interrupted, Kinded, FloatStage;
      var stop := cancel.IsCancelled();
      if stop {
        return Err(BraidError.Cancelled);
      }
      var run := RunStageOn(ops, version.stages, k, packet, cancel);
      if run.Err? {
        return Err(run.error);
      }
      var valid := Check(debug, version.plan, packet);
      if valid.Err? {
        return Err(valid.error);
      }
      return Ok(NextTask(StageTask(k), |version.stages|));
    }

    /** decode_step: give the packet back cleared, and complete the record with the decoded values. */
    method DecodeStep() returns (r: Result<()>)
      requires Ready() && packet != null && packet.Valid()
      modifies this`record, this`packet, packet, cancel
      ensures old(packet).Valid() && cancel.polls == old(cancel.polls) + 1
      ensures Kinded(old(packet.Abstract())) ==> Kinded(old(packet).Abstract())
      ensures old(cancel.Set()) ==> r == Err(BraidError.Cancelled) && record == old(record)
      ensures r.Ok? ==> packet == null && Decoded(version.plan.meta.finalSlot, old(packet.Abstract())).Ok?
      ensures r.Ok? ==> record == Completed(Some(Decoded(version.plan.meta.finalSlot, old(packet.Abstract())).value))
      ensures r.Ok? ==> old(packet).Abstract() == Cleared(old(packet.Abstract()))
      ensures r.Err? ==> record == old(record) && (packet == null || packet == old(packet))
      ensures r.Err? && !old(cancel.Set()) ==>
        || Decoded(version.plan.meta.finalSlot, old(packet.Abstract())) == Err(r.error)
        || (Denied(r.error) && !PacketValid(version.plan.buffers, old(packet.Abstract())))
    {
      hide Decoded, PacketValid, JobPacket.Valid, JobPacket.Abstract, Kinded;
      var stop := cancel.IsCancelled();
      if stop {
        return Err(BraidError.Cancelled);
      }
      var taken := packet;
      packet := null;
      var valid := Check(debug, version.plan, taken);
      if valid.Err? {
        ClearPacket(taken);
        return Err(valid.error);
      }
      var values := DecodeBatch(version.plan.meta.finalSlot, taken);
      ClearPacket(taken);
      if values.Err? {
        return Err(values.error);
      }
      record := Completed(Some(values.value));
      return Ok(());
    }

    /** run_caught after an error: clean up the packet, then write the record. */
    method Finish(error: BraidError)
      requires packet != null ==> packet.Valid()
      modifies this`record, this`packet, packet
      ensures packet == null && (old(packet) != null ==> old(packet).Valid())
      ensures record == if error == BraidError.Cancelled then CancelledRecord else Failed(Some(error))
      ensures old(packet) != null ==> old(packet).Abstract() == Cleared(old(Held()))
      ensures old(packet) != null && Kinded(old(Held())) ==> Kinded(old(packet).Abstract())
    {
      hide Kinded;
      if packet != null {
        ClearPacket(packet);
      }
      packet := null;
      record := if error == BraidError.Cancelled then CancelledRecord else Failed(Some(error));
    }

    /** The record is that of the inline result, of a cancellation some poll saw, or of a debug check's refusal. */
    ghost predicate Settled(view: View, since: nat)
      requires Ready()
      reads this, cancel
    {
      || record == RecordOf(Executed(ops, version.plan, version.stages, queries, view))
      || (record == CancelledRecord && Kernels.Interrupted(BraidError.Cancelled, cancel, since))
      || (debug && record.Failed? && Encoded(version.plan.meta.dimension, queries, CheckedOut(view)).Ok?
          && Refused(ops, version.plan, version.stages,
                     Encoded(version.plan.meta.dimension, queries, CheckedOut(view)).value))
    }

    /** All tasks one after another, each as the executor would run it when nothing is refused. */
    method RunAll(pooled: JobPacket)
      requires Ready() && pooled.Valid() && packet == null && record == Pending
      modifies this, pooled, cancel
      ensures record.Terminal() && packet == null && pooled.Valid()
      ensures KindedPlan(version.plan, version.stages) && Kinded(old(pooled.Abstract())) ==> Kinded(pooled.Abstract())
      ensures old(cancel.Set()) ==> record == CancelledRecord
      ensures record.Completed? ==> record.values.Some?
      ensures record.Completed? ==>
        Executed(ops, version.plan, version.stages, queries, old(pooled.Abstract())) == Ok(record.values.value)
      ensures Settled(old(pooled.Abstract()), old(cancel.polls))
    {
      hide Encoded, RunStage, Decoded, JobPacket.Valid, JobPacket.Abstract, Loaded, Cleared, PacketValid;
      hide Kinded, KindedPlan;
      ghost var start := pooled.Abstract();
      NeverCancelled(ops, version.plan, version.stages, queries, start);
      var next := EncodeStep(pooled);
      if next.Err? {
        Finish(next.error);
        if Encoded(version.plan.meta.dimension, queries, CheckedOut(start)).Ok? {
          assert version.stages[..0] == [];
        }
        return;
      }
      ghost var encoded := pooled.Abstract();
      var k := 0;
      while k < |version.stages|
        invariant k <= |version.stages| && packet == pooled && pooled.Valid() && !record.Terminal()
          && !old(cancel.Set()) && cancel.polls > old(cancel.polls)
        invariant next == Ok(if k < |version.stages| then StageTask(k) else DecodeTask)
        invariant RunStages(ops, version.stages[..k], encoded) == Ok(pooled.Abstract())
        invariant KindedPlan(version.plan, version.stages) && Kinded(start) ==> Kinded(pooled.Abstract())
      {
        assert version.stages[..k + 1][..k] == version.stages[..k];
        next := StageStep(k);
        if next.Err? {
          ghost var done := RunStages(ops, version.stages[..k + 1], encoded);
          if done.Err? {
            RunPrefixFails(ops, version.stages, encoded, k + 1);
          }
          if !Kernels.Interrupted(next.error, cancel, old(cancel.polls)) && done != Err(next.error) {
            assert Denied(next.error) && done == Ok(pooled.Abstract());
            assert !PacketValid(version.plan.buffers, done.value);
            assert Refused(ops, version.plan, version.stages, encoded);
          }
          Finish(next.error);
          return;
        }
        k := k + 1;
      }
      assert version.stages[..k] == version.stages;
      var decode := DecodeStep();
      if decode.Err? {
        Finish(decode.error);
      }
    }
  }

  /** A packet on its way back to the pool. */
  method ClearPacket(packet: JobPacket)
    requires packet.Valid()
    modifies packet
    ensures packet.Valid() && packet.Abstract() == Cleared(old(packet.Abstract()))
    ensures Kinded(old(packet.Abstract())) ==> Kinded(packet.Abstract())
  {
    if Kinded(packet.Abstract()) {
      ClearedKinded(packet.Abstract());
    }
    packet.ClearForReuse();
  }
}
