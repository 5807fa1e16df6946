/** Prepared objects are never shared, version ids follow the swaps, and a failed update changes nothing. */
module VersionSafety {
  import opened Common
  import opened Model
  import opened Semantics
  import opened StackCore
  import opened StackProtocol
  import opened Grid
  import opened Runtime
  import opened Inline
  import opened Packet
  import opened GraphState

  ghost predicate ObjectsApart(versions: seq<Deployment>) {
    forall a, b :: 0 <= a < b < |versions| && versions[a].backing.Some? && versions[b].backing.Some? ==>
      versions[a].backing != versions[b].backing
  }

  /** The object an update holds, popped or newly prepared. */
  function HeldObject(u: Option<Update>): Option<nat> {
    if u.None? then None
    else
      match u.value.phase
      case Preparing(_, _, reuse) => reuse
      case Prepared(_, _, backing) => Some(backing)
      case Numbered(_, backing) => Some(backing)
      case _ => None
  }

  /** Every prepared object has one owner: a version, the pool, or the update in progress. */
  ghost predicate OneOwner(s: Sys) {
    && NoDuplicates(s.pool) && ObjectsApart(s.versions)
    && (forall v :: 0 <= v < |s.versions| && s.versions[v].backing.Some? ==>
         s.versions[v].backing.value !in s.pool && s.versions[v].backing.value < s.nextObject
         && s.versions[v].backing != HeldObject(s.update))
    && (forall o :: o in s.pool ==> o < s.nextObject && Some(o) != HeldObject(s.update))
    && (HeldObject(s.update).Some? ==> HeldObject(s.update).value < s.nextObject)
  }

  /** Whatever is referenced still has its prepared object. */
  ghost predicate ReferencedReady(s: Sys) {
    && s.current < |s.versions| && s.versions[s.current].backing.Some?
    && (forall r :: 0 <= r < |s.readers| ==> s.readers[r] < |s.versions| && s.versions[s.readers[r]].backing.Some?)
    && (forall i :: 0 <= i < |s.calls| ==> s.calls[i].job < |s.jobs|)
    && (forall j :: 0 <= j < |s.jobs| ==> s.jobs[j].version < |s.versions|)
    && (forall i :: 0 <= i < |s.calls| ==> s.versions[s.jobs[s.calls[i].job].version].backing.Some?)
  }

  /** The newest version is current, ids increase in swap order, and the published id follows. */
  ghost predicate Numbering(s: Sys) {
    && |s.versions| > 0 && s.current == |s.versions| - 1
    && (forall a, b :: 0 <= a < b < |s.versions| ==> s.versions[a].version.id < s.versions[b].version.id)
    && (forall a :: 0 <= a < |s.versions| ==> s.versions[a].version.id < s.nextVersionId)
    && (s.update.Some? && s.update.value.phase.Numbered? ==>
         s.versions[s.current].version.id < s.update.value.phase.version.id < s.nextVersionId)
    && (if s.update.Some? && s.update.value.phase.Swapped?
        then s.versions[s.current].version == s.update.value.phase.version
          && s.currentId < s.update.value.phase.version.id
        else s.currentId == s.versions[s.current].version.id)
  }

  predicate BeforeSwap(phase: UpdatePhase) {
    !phase.Swapped? && !phase.Published?
  }

  /** Until its swap an update has changed nothing anybody can observe, and until its end not the planner state. */
  ghost predicate Unchanged(s: Sys) {
    s.update.Some? ==>
      && s.planner == s.update.value.plannerWas
      && (!s.update.value.commits ==> s.update.value.next == s.update.value.plannerWas)
      && (BeforeSwap(s.update.value.phase) ==>
           && s.current == s.update.value.currentWas && s.currentId == s.update.value.idWas
           && SameVersions(s.update.value.versionsWas, s.versions))
  }

  /** The same frozen versions of the same states; some may have gone out of use and given their objects back. */
  ghost predicate SameVersions(was: seq<Deployment>, now: seq<Deployment>) {
    |now| == |was| &&
    forall v :: 0 <= v < |was| ==>
      && now[v].version == was[v].version && now[v].source == was[v].source
      && (now[v].backing == was[v].backing || now[v].backing.None?)
  }

  /** Every version is the compile of its source, and an update compiles the state it will install. */
  ghost predicate Sourced(s: Sys) {
    && (forall v :: 0 <= v < |s.versions| ==>
         CompilesTo(s.versions[v].source, s.versions[v].version.plan, s.versions[v].version.stages))
    && (s.update.Some? ==>
         match s.update.value.phase
         case Compiled(plan, stages) => CompilesTo(s.update.value.next, plan, stages)
         case Preparing(plan, stages, _) => CompilesTo(s.update.value.next, plan, stages)
         case Prepared(plan, stages, _) => CompilesTo(s.update.value.next, plan, stages)
         case Numbered(version, _) => CompilesTo(s.update.value.next, version.plan, version.stages)
         case Swapped(_) => s.versions != [] && s.versions[|s.versions| - 1].source == s.update.value.next
         case Published => s.versions != [] && s.versions[|s.versions| - 1].source == s.update.value.next
         case Compiling => true)
  }

  ghost predicate Versioned(s: Sys) {
    OneOwner(s) && ReferencedReady(s) && Numbering(s) && Unchanged(s) && Sourced(s)
  }

  lemma CreatedVersioned(first: Version, planner: State)
    requires CompilesTo(planner, first.plan, first.stages)
    ensures Versioned(Created(first, planner))
  {
    hide CompilesTo;
  }

  /** Steps of jobs and collectors keep the versions as they are and refer to no new one but the current. */
  lemma JobStepVersioned(s: Sys, s': Sys)
    requires Versioned(s)
    requires s'.versions == s.versions && s'.current == s.current && s'.currentId == s.currentId
      && s'.readers == s.readers
    requires s'.nextVersionId == s.nextVersionId && s'.pool == s.pool && s'.nextObject == s.nextObject
    requires s'.update == s.update && s'.planner == s.planner
    requires |s.jobs| <= |s'.jobs| && forall j :: 0 <= j < |s.jobs| ==> s'.jobs[j].version == s.jobs[j].version
    requires forall j :: |s.jobs| <= j < |s'.jobs| ==> s'.jobs[j].version == s.current
    requires forall i :: 0 <= i < |s'.calls| ==>
      s'.calls[i].job < |s'.jobs|
        && (s'.calls[i].job >= |s.jobs| || exists k :: 0 <= k < |s.calls| && s.calls[k].job == s'.calls[i].job)
    ensures Versioned(s')
  {
    hide OneOwner, Numbering, Unchanged, Sourced;
    SourcedSame(s, s');
    assert OneOwner(s') by { OwnerSame(s, s'); }
    assert Numbering(s') by { NumberingSame(s, s'); }
    assert Unchanged(s') by { UnchangedSame(s, s'); }
    forall i | 0 <= i < |s'.calls| ensures s'.versions[s'.jobs[s'.calls[i].job].version].backing.Some? {
      if s'.calls[i].job < |s.jobs| {
        var k :| 0 <= k < |s.calls| && s.calls[k].job == s'.calls[i].job;
        assert s.versions[s.jobs[s.calls[k].job].version].backing.Some?;
      }
    }
  }

  lemma OwnerSame(s: Sys, s': Sys)
    requires OneOwner(s) && s'.versions == s.versions && s'.pool == s.pool && s'.nextObject == s.nextObject
    requires HeldObject(s'.update) == HeldObject(s.update)
    ensures OneOwner(s')
  {}

  lemma SourcedSame(s: Sys, s': Sys)
    requires Sourced(s) && s'.update == s.update && |s'.versions| == |s.versions|
    requires forall v :: 0 <= v < |s.versions| ==>
      s'.versions[v].version == s.versions[v].version && s'.versions[v].source == s.versions[v].source
    ensures Sourced(s')
  {
    hide CompilesTo;
  }

  lemma NumberingSame(s: Sys, s': Sys)
    requires Numbering(s) && s'.versions == s.versions && s'.current == s.current && s'.currentId == s.currentId
    requires s'.nextVersionId == s.nextVersionId && s'.update == s.update
    ensures Numbering(s')
  {}

  lemma UnchangedSame(s: Sys, s': Sys)
    requires Unchanged(s) && s'.planner == s.planner && s'.update == s.update
    requires s'.current == s.current && s'.currentId == s.currentId && SameVersions(s.versions, s'.versions)
    ensures Unchanged(s')
  {}

  /** What no call of a job changes: what it was dispatched with, and what was asked and received of it. */
  predicate SameOrigin(b: Job, b': Job) {
    && b'.version == b.version && b'.queries == b.queries && b'.cancel == b.cancel && b'.doomed == b.doomed
    && b'.delivered == b.delivered && b'.giver == b.giver && b'.reported == b.reported
  }

  /** What a call step may touch: the calls' phases, one job's record, and one further call of the same job. */
  ghost predicate CallShape(s: Sys, s': Sys, i: nat)
    requires InCall(s, i)
  {
    && s' == s.(jobs := s'.jobs, calls := s'.calls) && |s'.jobs| == |s.jobs| && |s'.calls| >= |s.calls|
    && (forall j :: 0 <= j < |s.jobs| ==> SameOrigin(s.jobs[j], s'.jobs[j]))
    && (forall j :: 0 <= j < |s.jobs| && j != s.calls[i].job ==> s'.jobs[j] == s.jobs[j])
    && (forall k :: 0 <= k < |s.calls| ==> s'.calls[k].job == s.calls[k].job)
    && (forall k :: |s.calls| <= k < |s'.calls| ==> s'.calls[k].job == s.calls[i].job)
  }

  lemma MovedShape(s: Sys, i: nat, phase: Phase)
    requires InCall(s, i)
    ensures CallShape(s, Move(s, i, phase), i)
  {
    hide Move;
  }

  lemma WithShape(s: Sys, i: nat, phase: Phase, job: Job)
    requires InCall(s, i) && SameOrigin(JobOf(s, i), job)
    ensures CallShape(s, With(Move(s, i, phase), i, job), i)
  {
    hide Move;
  }

  lemma EncodeShape(s: Sys, i: nat, fault: Option<BraidError>, view: View)
    requires InCall(s, i)
    ensures CallShape(s, EncodeStep(s, i, fault, view), i)
  {
    hide Encoded, Loaded, Cleared, Move, With, CallShape;
    var b, v := JobOf(s, i), VersionOf(s, i);
    var logged := b.(log := b.log + [EncodeTask], start := view, disturbed := b.disturbed || fault.Some?);
    match Faulty(fault, Encoded(v.plan.meta.dimension, b.queries, Loaded(Cleared(view), v.plan.statics)))
    case Err(e) => WithShape(s, i, Unwinding(e), logged);
    case Ok(packet) =>
      WithShape(s, i, Unwinding(Message), logged);
      WithShape(s, i, Handing(EncodeTask), logged.(packet := Some(packet)));
  }

  lemma StageShape(ops: Ops, s: Sys, i: nat, k: nat, fault: Option<BraidError>, view: View)
    requires InCall(s, i)
    ensures CallShape(s, StageStep(ops, s, i, k, fault, view), i)
  {
    hide RunStage, Move, With, CallShape;
    var b, v := JobOf(s, i), VersionOf(s, i);
    var logged := b.(log := b.log + [StageTask(k)], disturbed := b.disturbed || fault.Some?);
    WithShape(s, i, Unwinding(Message), logged);
    if b.packet.Some? && k < |v.stages| {
      match Faulty(fault, RunStage(ops, v.stages[k], b.packet.value))
      case Err(e) => WithShape(s, i, Unwinding(e), logged.(packet := Some(view)));
      case Ok(packet) => WithShape(s, i, Handing(StageTask(k)), logged.(packet := Some(packet)));
    }
  }

  lemma DecodeShape(s: Sys, i: nat, fault: Option<BraidError>)
    requires InCall(s, i)
    ensures CallShape(s, DecodeStep(s, i, fault), i)
  {
    hide Decoded, Move, With, CallShape;
    var b, v := JobOf(s, i), VersionOf(s, i);
    var logged := b.(log := b.log + [DecodeTask], disturbed := b.disturbed || fault.Some?);
    WithShape(s, i, Unwinding(Message), logged);
    if b.packet.Some? {
      match Faulty(fault, Decoded(v.plan.meta.finalSlot, b.packet.value))
      case Err(e) => WithShape(s, i, Unwinding(e), logged.(packet := None));
      case Ok(values) => WithShape(s, i, Storing(values), logged.(packet := None));
    }
  }

  lemma WorkShape(ops: Ops, s: Sys, i: nat, fault: Option<BraidError>, view: View)
    requires InCall(s, i) && s.calls[i].phase.Working?
    ensures CallShape(s, WorkStep(ops, s, i, fault, view), i)
  {
    hide CallShape, EncodeStep, StageStep, DecodeStep;
    match s.calls[i].phase.task
    case EncodeTask => EncodeShape(s, i, fault, view);
    case StageTask(k) => StageShape(ops, s, i, k, fault, view);
    case DecodeTask => DecodeShape(s, i, fault);
  }

  lemma HandShape(s: Sys, i: nat, ok: bool)
    requires InCall(s, i) && s.calls[i].phase.Handing?
    ensures CallShape(s, HandStep(s, i, ok), i)
  {
    hide Move;
  }

  lemma TaskStepShape(ops: Ops, s: Sys, a: Step)
    requires CallEnabled(s, a) && !IsEndStep(a)
    ensures CallShape(s, CallStep(ops, s, a), a.i)
  {
    hide CallShape, Move, With, HandStep, WorkStep;
    var b := JobOf(s, a.i);
    match a
    case List(i) => WithShape(s, i, Submitting, b.(listed := true));
    case Submit(i, ok) =>
      MovedShape(s, i, Queued(EncodeTask));
      WithShape(s, i, Returning, b.(listed := false, disturbed := true));
    case Start(i) => MovedShape(s, i, Started(s.calls[i].phase.task));
    case Refuse(i) => WithShape(s, i, Dropped(ExecutorShutdown), b.(disturbed := true));
    case CheckCancel(i) => CheckShape(s, i);
    case Mark(i) => WithShape(s, i, Working(EncodeTask), b.(record := Active));
    case Work(i, fault, view) => WorkShape(ops, s, i, fault, view);
    case Hand(i, ok) => HandShape(s, i, ok);
  }

  lemma CheckShape(s: Sys, i: nat)
    requires InCall(s, i) && s.calls[i].phase.Started?
    ensures CallShape(s, CheckStep(s, i), i)
  {
    hide CallShape, Move;
    var task := s.calls[i].phase.task;
    MovedShape(s, i, if JobOf(s, i).cancel then Unwinding(BraidError.Cancelled)
                     else if task.EncodeTask? then Marking else Working(task));
  }

  lemma EndStepShape(ops: Ops, s: Sys, a: Step)
    requires CallEnabled(s, a) && IsEndStep(a)
    ensures CallShape(s, CallStep(ops, s, a), a.i)
  {
    hide CallShape, RejectStep, RejectedStep, CleanStep, FailStep, StoreStep;
    match a
    case Reject(i) => RejectShape(s, i);
    case Rejected(i) => RejectedShape(s, i);
    case Clean(i) => CleanShape(s, i);
    case Fail(i) => FailShape(s, i);
    case Store(i) => StoreShape(s, i);
  }

  lemma RejectShape(s: Sys, i: nat)
    requires InCall(s, i) && (s.calls[i].phase.Declined? || s.calls[i].phase.Dropped?)
    ensures CallShape(s, RejectStep(s, i), i)
  {
    hide CallShape, Move, With;
    WithShape(s, i, Rejecting(s.calls[i].phase.error, s.calls[i].phase.Declined?), JobOf(s, i).(packet := None));
  }

  lemma RejectedShape(s: Sys, i: nat)
    requires InCall(s, i) && s.calls[i].phase.Rejecting?
    ensures CallShape(s, RejectedStep(s, i), i)
  {
    hide CallShape, Move, With;
    var b, e := JobOf(s, i), s.calls[i].phase.error;
    WithShape(s, i, if s.calls[i].phase.unwinds then Unwinding(e) else Returning,
              b.(record := Failed(Some(e)), writes := b.writes + 1));
  }

  lemma CleanShape(s: Sys, i: nat)
    requires InCall(s, i) && s.calls[i].phase.Unwinding?
    ensures CallShape(s, CleanStep(s, i), i)
  {
    hide CallShape, Move, With;
    WithShape(s, i, Failing(s.calls[i].phase.error), JobOf(s, i).(packet := None));
  }

  lemma FailShape(s: Sys, i: nat)
    requires InCall(s, i) && s.calls[i].phase.Failing?
    ensures CallShape(s, FailStep(s, i), i)
  {
    hide CallShape, Move, With;
    var b, e := JobOf(s, i), s.calls[i].phase.error;
    WithShape(s, i, Returning, b.(record := if e == BraidError.Cancelled then CancelledRecord else Failed(Some(e)),
                                  writes := b.writes + 1));
  }

  lemma StoreShape(s: Sys, i: nat)
    requires InCall(s, i) && s.calls[i].phase.Storing?
    ensures CallShape(s, StoreStep(s, i), i)
  {
    hide CallShape, Move, With;
    var b := JobOf(s, i);
    WithShape(s, i, Returning, b.(record := Completed(Some(s.calls[i].phase.values)), writes := b.writes + 1));
  }

  lemma CallStepVersioned(ops: Ops, s: Sys, a: Step)
    requires Versioned(s) && CallEnabled(s, a)
    ensures Versioned(CallStep(ops, s, a))
  {
    hide CallStep, Versioned, CallShape;
    if IsEndStep(a) {
      EndStepShape(ops, s, a);
    } else {
      TaskStepShape(ops, s, a);
    }
    ShapeVersioned(s, CallStep(ops, s, a), a.i);
  }

  lemma ShapeVersioned(s: Sys, s': Sys, i: nat)
    requires Versioned(s) && InCall(s, i) && CallShape(s, s', i)
    ensures Versioned(s')
  {
    hide OneOwner, Numbering, Unchanged, Sourced;
    forall k | 0 <= k < |s'.calls|
      ensures s'.calls[k].job < |s.jobs| && exists m :: 0 <= m < |s.calls| && s.calls[m].job == s'.calls[k].job
    {
      if k < |s.calls| {
        assert s.calls[k].job == s'.calls[k].job;
      } else {
        assert s.calls[i].job == s'.calls[k].job;
      }
    }
    JobStepVersioned(s, s');
  }

  /** What a step of the tables may touch: jobs but not their versions, and calls of known or new jobs. */
  ghost predicate TableShape(s: Sys, s': Sys) {
    && s' == s.(jobs := s'.jobs, calls := s'.calls, collectors := s'.collectors) && |s.jobs| <= |s'.jobs|
    && (forall j :: 0 <= j < |s.jobs| ==> s'.jobs[j].version == s.jobs[j].version)
    && (forall j :: |s.jobs| <= j < |s'.jobs| ==> s'.jobs[j].version == s.current)
    && (forall k :: 0 <= k < |s'.calls| ==>
        s'.calls[k].job < |s'.jobs| && (s'.calls[k].job >= |s.jobs| || KnownJob(s, s'.calls[k].job)))
  }

  ghost predicate KnownJob(s: Sys, j: nat) {
    exists k :: 0 <= k < |s.calls| && s.calls[k].job == j
  }

  lemma SameCalls(s: Sys)
    requires forall k :: 0 <= k < |s.calls| ==> s.calls[k].job < |s.jobs|
    ensures forall k :: 0 <= k < |s.calls| ==> KnownJob(s, s.calls[k].job)
  {}

  lemma DispatchShape(s: Sys, queries: seq<ChunkQuery>)
    requires forall k :: 0 <= k < |s.calls| ==> s.calls[k].job < |s.jobs|
    ensures TableShape(s, DispatchStep(s, queries))
  {
    hide KnownJob;
    SameCalls(s);
    var s' := DispatchStep(s, queries);
    assert forall k :: 0 <= k < |s.calls| ==> s'.calls[k] == s.calls[k];
  }

  lemma ReturnShape(s: Sys, i: nat)
    requires i < |s.calls| && forall k :: 0 <= k < |s.calls| ==> s.calls[k].job < |s.jobs|
    ensures TableShape(s, ReturnStep(s, i))
  {
    hide KnownJob;
    SameCalls(s);
    var s' := ReturnStep(s, i);
    assert forall k :: 0 <= k < |s'.calls| ==> s'.calls[k] == if k < i then s.calls[k] else s.calls[k + 1];
  }

  lemma OtherTableShape(s: Sys, a: Step)
    requires TableEnabled(s, a) && !a.Dispatch? && !a.Return?
    requires forall k :: 0 <= k < |s.calls| ==> s.calls[k].job < |s.jobs|
    ensures TableShape(s, TableStep(s, a))
  {
    hide KnownJob, PastDecodeCheck;
    SameCalls(s);
  }

  lemma TableStepVersioned(s: Sys, a: Step)
    requires Versioned(s) && TableEnabled(s, a)
    ensures Versioned(TableStep(s, a))
  {
    hide Versioned, TableShape, DispatchStep, ReturnStep, CancelStep, TakeStep, UnlistStep;
    SomeVersioned(s);
    match a {
      case Dispatch(queries) => DispatchShape(s, queries);
      case Return(i) => ReturnShape(s, i);
      case _ => OtherTableShape(s, a);
    }
    TableVersioned(s, TableStep(s, a));
  }

  lemma TableVersioned(s: Sys, s': Sys)
    requires Versioned(s) && TableShape(s, s')
    ensures Versioned(s')
  {
    hide Versioned;
    JobStepVersioned(s, s');
  }

  lemma SomeVersioned(s: Sys)
    requires Versioned(s)
    ensures forall i :: 0 <= i < |s.calls| ==> s.calls[i].job < |s.jobs|
  {}

  // ---------------------------------------------------------------- steps of versions

  lemma DropVersioned(s: Sys, v: nat)
    requires Versioned(s) && v < |s.versions| && s.versions[v].backing.Some? && !Referenced(s, v)
    ensures Versioned(DropStep(s, v))
    ensures var s', o := DropStep(s, v), s.versions[v].backing.value;
      s'.versions[v].backing.None? && o in s'.pool && o !in s.pool && forall p :: p in s.pool ==> p in s'.pool
  {
    hide Sourced;
    var s' := DropStep(s, v);
    SourcedSame(s, s');
    assert s'.pool[..|s.pool|] == s.pool;
    forall i | 0 <= i < |s.calls| ensures s.jobs[s.calls[i].job].version != v {
      assert !CallRefers(s, i, v);
    }
    forall r | 0 <= r < |s.readers| ensures s.readers[r] != v {
      assert s.readers[r] in s.readers;
    }
  }

  lemma ReaderVersioned(s: Sys, s': Sys)
    requires Versioned(s) && s' == s.(readers := s'.readers)
    requires forall r :: r in s'.readers ==> r == s.current || r in s.readers
    ensures Versioned(s')
  {
    hide OneOwner, Numbering, Sourced;
    SourcedSame(s, s');
    assert OneOwner(s') by { OwnerSame(s, s'); }
    assert Numbering(s') by { NumberingSame(s, s'); }
    forall r | 0 <= r < |s'.readers|
      ensures s'.readers[r] < |s'.versions| && s'.versions[s'.readers[r]].backing.Some?
    {
      assert s'.readers[r] in s'.readers;
    }
  }

  lemma ReuseVersioned(s: Sys)
    requires Versioned(s) && s.update.Some? && s.update.value.phase.Compiled?
    ensures Versioned(ReuseStep(s, s.update.value.phase.plan, s.update.value.phase.stages))
    ensures var s' := ReuseStep(s, s.update.value.phase.plan, s.update.value.phase.stages);
      if s.pool == [] then s'.pool == [] && HeldObject(s'.update).None?
      else s.pool == s'.pool + [s.pool[|s.pool| - 1]] && HeldObject(s'.update) == Some(s.pool[|s.pool| - 1])
  {
    hide CompilesTo;
    var s' := ReuseStep(s, s.update.value.phase.plan, s.update.value.phase.stages);
    if s.pool != [] {
      var n := |s.pool| - 1;
      assert s.pool[n] in s.pool;
      forall o | o in s'.pool ensures o in s.pool && o != s.pool[n] {
        var k :| 0 <= k < |s'.pool| && s'.pool[k] == o;
        assert s.pool[k] == o;
      }
    }
  }

  lemma SwapVersioned(s: Sys)
    requires Versioned(s) && s.update.Some? && s.update.value.phase.Numbered?
    ensures Versioned(SwapStep(s, s.update.value.phase.version, s.update.value.phase.backing))
  {
    hide CompilesTo;
    var s' := SwapStep(s, s.update.value.phase.version, s.update.value.phase.backing);
    assert forall v :: 0 <= v < |s.versions| ==> s'.versions[v] == s.versions[v];
  }

  predicate IsPlainUpdate(a: Step) {
    !a.Reuse? && !a.Swap?
  }

  lemma UpdateVersioned(s: Sys, a: Step)
    requires Versioned(s) && PlannerEnabled(s, a) && IsPlainUpdate(a)
    ensures Versioned(PlannerStep(s, a))
  {
    hide OneOwner, Numbering, Unchanged, ReferencedReady, Sourced, PlannerStep, PlannerEnabled;
    UpdateSourced(s, a);
    UpdateOwner(s, a);
    UpdateNumbering(s, a);
    UpdateUnchanged(s, a);
    UpdateReady(s, a);
  }

  lemma UpdateReady(s: Sys, a: Step)
    requires ReferencedReady(s) && PlannerEnabled(s, a) && IsPlainUpdate(a)
    ensures ReferencedReady(PlannerStep(s, a))
  {
    hide CompilesTo, ReferencedReady;
    ReadySame(s, PlannerStep(s, a));
  }

  lemma UpdateOwner(s: Sys, a: Step)
    requires OneOwner(s) && PlannerEnabled(s, a) && IsPlainUpdate(a)
    ensures OneOwner(PlannerStep(s, a))
  {
    hide CompilesTo;
  }

  lemma UpdateSourced(s: Sys, a: Step)
    requires Sourced(s) && PlannerEnabled(s, a) && IsPlainUpdate(a)
    ensures Sourced(PlannerStep(s, a))
  {
    hide CompilesTo;
  }

  lemma UpdateNumbering(s: Sys, a: Step)
    requires Numbering(s) && PlannerEnabled(s, a) && IsPlainUpdate(a)
    ensures Numbering(PlannerStep(s, a))
  {
    hide CompilesTo;
  }

  lemma UpdateUnchanged(s: Sys, a: Step)
    requires Unchanged(s) && PlannerEnabled(s, a) && IsPlainUpdate(a)
    ensures Unchanged(PlannerStep(s, a))
  {
    hide CompilesTo;
  }

  lemma ReadySame(s: Sys, s': Sys)
    requires ReferencedReady(s) && s'.versions == s.versions && s'.current == s.current && s'.readers == s.readers
    requires s'.calls == s.calls && s'.jobs == s.jobs
    ensures ReferencedReady(s')
  {}

  lemma VersionStepVersioned(s: Sys, a: Step)
    requires Versioned(s) && VersionEnabled(s, a)
    ensures Versioned(VersionStep(s, a))
  {
    hide Versioned, Referenced, DropStep;
    match a
    case Drop(v) => DropVersioned(s, v);
    case Read => ReaderVersioned(s, VersionStep(s, a));
    case ReadDone(r) => ReaderVersioned(s, VersionStep(s, a));
  }

  lemma PlannerStepVersioned(s: Sys, a: Step)
    requires Versioned(s) && PlannerEnabled(s, a)
    ensures Versioned(PlannerStep(s, a))
  {
    hide Versioned, CompilesTo, ReuseStep, SwapStep;
    match a
    case Reuse => ReuseVersioned(s);
    case Swap => SwapVersioned(s);
    case _ => UpdateVersioned(s, a);
  }

  lemma StepVersioned(ops: Ops, s: Sys, a: Step)
    requires Versioned(s) && Enabled(s, a)
    ensures Versioned(Do(ops, s, a))
  {
    hide Versioned, CallEnabled, TableEnabled, VersionEnabled, PlannerEnabled, CallStep, TableStep, VersionStep;
    hide PlannerStep;
    if IsCallStep(a) {
      CallStepVersioned(ops, s, a);
    } else if IsTableStep(a) {
      TableStepVersioned(s, a);
    } else if IsVersionStep(a) {
      VersionStepVersioned(s, a);
    } else {
      PlannerStepVersioned(s, a);
    }
  }

  // ---------------------------------------------------------------- every reachable state

  lemma {:induction false} VersionsSafe(ops: Ops, first: Version, planner: State, steps: seq<Step>)
    requires CompilesTo(planner, first.plan, first.stages) && Run(ops, Created(first, planner), steps).Some?
    ensures Versioned(Run(ops, Created(first, planner), steps).value)
  {
    hide Versioned, Do, Enabled, CompilesTo;
    if steps == [] {
      CreatedVersioned(first, planner);
    } else {
      VersionsSafe(ops, first, planner, steps[..|steps| - 1]);
      StepVersioned(ops, Run(ops, Created(first, planner), steps[..|steps| - 1]).value, steps[|steps| - 1]);
    }
  }

  /**
   * Safe reuse: a version that the stack, an inline execution or a live call refers to still has its
   * prepared object, and that object is neither in the pool, nor with an update, nor another version's.
   */
  lemma SafeReuse(s: Sys, v: nat)
    requires Versioned(s) && Referenced(s, v)
    ensures v < |s.versions| && s.versions[v].backing.Some?
    ensures s.versions[v].backing.value !in s.pool && s.versions[v].backing != HeldObject(s.update)
    ensures forall w :: 0 <= w < |s.versions| && w != v ==> s.versions[w].backing != s.versions[v].backing
  {
    hide Sourced, Numbering, Unchanged;
    if i :| 0 <= i < |s.calls| && CallRefers(s, i, v) {
      assert s.versions[s.jobs[s.calls[i].job].version].backing.Some?;
    } else if v in s.readers {
      var r :| 0 <= r < |s.readers| && s.readers[r] == v;
    }
  }

  /** A failed update leaves planner state, current version and published id as it found them. */
  lemma FailedUpdate(s: Sys)
    requires Versioned(s) && PlannerEnabled(s, Abort)
    ensures var s', u := AbortStep(s), s.update.value;
      && s'.planner == u.plannerWas && s'.current == u.currentWas && s'.currentId == u.idWas
      && SameVersions(u.versionsWas, s'.versions) && s'.update.None?
  {
    hide OneOwner, ReferencedReady, Numbering, Sourced;
  }

  /**
   * The versions after a step: none lost or changed, and the current and published ones only replaced by newer
   * ones.
   */
  ghost predicate Newer(s: Sys, s': Sys, a: Step) {
    && |s.versions| <= |s'.versions| && s.current <= s'.current < |s'.versions| && s.current < |s.versions|
    && (s'.current != s.current ==> a.Swap? && s'.versions[s'.current].version.id > s.versions[s.current].version.id)
    && (s'.currentId != s.currentId ==> a.Publish? && s'.currentId > s.currentId)
    && (forall v :: 0 <= v < |s.versions| ==>
         s'.versions[v].version == s.versions[v].version && s'.versions[v].source == s.versions[v].source)
  }

  lemma SameNewer(s: Sys, s': Sys, a: Step)
    requires Numbering(s) && s'.current == s.current && s'.currentId == s.currentId && |s'.versions| == |s.versions|
    requires forall v :: 0 <= v < |s.versions| ==>
      s'.versions[v].version == s.versions[v].version && s'.versions[v].source == s.versions[v].source
    ensures Newer(s, s', a)
  {}

  lemma PlannerNewer(s: Sys, a: Step)
    requires Numbering(s) && PlannerEnabled(s, a)
    ensures Newer(s, PlannerStep(s, a), a)
  {
    hide CompilesTo;
  }

  lemma TableNewer(s: Sys, a: Step)
    requires Numbering(s) && TableEnabled(s, a)
    ensures Newer(s, TableStep(s, a), a)
  {
    hide Newer, Numbering, PastDecodeCheck;
    SameNewer(s, TableStep(s, a), a);
  }

  lemma VersionNewer(s: Sys, a: Step)
    requires Numbering(s) && VersionEnabled(s, a)
    ensures Newer(s, VersionStep(s, a), a)
  {
    hide Newer, Numbering, Referenced;
    SameNewer(s, VersionStep(s, a), a);
  }

  lemma CallNewer(ops: Ops, s: Sys, a: Step)
    requires Numbering(s) && CallEnabled(s, a)
    ensures Newer(s, CallStep(ops, s, a), a)
  {
    hide Newer, Numbering, CallStep;
    if IsEndStep(a) {
      EndStepShape(ops, s, a);
    } else {
      TaskStepShape(ops, s, a);
    }
    SameNewer(s, CallStep(ops, s, a), a);
  }

  /** Of all steps only a swap moves the current version and only a publication the published id, both upwards. */
  lemma IdsIncrease(ops: Ops, s: Sys, a: Step)
    requires Versioned(s) && Enabled(s, a)
    ensures Newer(s, Do(ops, s, a), a)
  {
    hide OneOwner, ReferencedReady, Numbering, Unchanged, Sourced, Newer, CallEnabled, TableEnabled, VersionEnabled;
    hide PlannerEnabled;
    hide CallStep, TableStep, VersionStep, PlannerStep;
    if IsCallStep(a) {
      CallNewer(ops, s, a);
    } else if IsTableStep(a) {
      TableNewer(s, a);
    } else if IsVersionStep(a) {
      VersionNewer(s, a);
    } else {
      PlannerNewer(s, a);
    }
  }

  /**
   * A committed update installed its own state, now the current version's source; a recompile left the planner
   * state alone.
   */
  lemma CommittedUpdate(s: Sys)
    requires Versioned(s) && PlannerEnabled(s, Commit)
    ensures s.update.Some? && CommitStep(s) == s.(
      planner := if s.update.value.commits then s.update.value.next else s.update.value.plannerWas, update := None)
    ensures s.current < |s.versions| && s.versions[s.current].source == s.update.value.next == CommitStep(s).planner
    ensures s.currentId == s.versions[s.current].version.id
  {
    hide OneOwner, ReferencedReady, CompilesTo;
  }

  // ---------------------------------------------------------------- what readers, planners and backends rely on

  /** prepare keeps the reused object when it says so, and otherwise makes one nobody had. */
  lemma PreparedObject(ops: Ops, s: Sys, keeps: bool)
    requires Versioned(s) && PlannerEnabled(s, PrepareDone(keeps))
    ensures var s', was := PlannerStep(s, PrepareDone(keeps)), HeldObject(s.update);
      && HeldObject(s'.update).Some?
      && (keeps && was.Some? ==> HeldObject(s'.update) == was)
      && (!keeps || was.None? ==> HeldObject(s'.update).value !in s.pool && HeldObject(s'.update) != was)
      && (!keeps || was.None? ==>
           forall v :: 0 <= v < |s.versions| ==> s.versions[v].backing != HeldObject(s'.update))
  {
    hide ReferencedReady, Numbering, Unchanged, Sourced, CompilesTo;
  }

  /** apply and replace change the planner state and nothing else. */
  lemma AppliedOnly(s: Sys, next: State)
    requires PlannerEnabled(s, Apply(next))
    ensures PlannerStep(s, Apply(next)) == s.(planner := next)
  {
    hide CompilesTo;
  }

  /** Only a drop of that very version takes its prepared object, and only an unreferenced version is dropped. */
  lemma StepKeepsVersion(ops: Ops, s: Sys, a: Step, v: nat)
    requires Versioned(s) && Enabled(s, a) && v < |s.versions| && v in s.readers && !a.ReadDone?
    ensures var s' := Do(ops, s, a);
      v < |s'.versions| && s'.versions[v] == s.versions[v] && v in s'.readers
  {
    hide OneOwner, Numbering, Unchanged, Sourced, CallEnabled, TableEnabled, PlannerEnabled, CallStep, TableStep;
    hide CompilesTo, PlannerStep;
    if IsCallStep(a) {
      CallKeepsVersions(ops, s, a);
    } else if IsTableStep(a) {
      TableKeepsVersions(s, a);
    } else if !IsVersionStep(a) {
      PlannerKeepsVersions(s, a);
    } else if a.Read? {
      assert (s.readers + [s.current])[..|s.readers|] == s.readers;
    }
  }

  lemma CallKeepsVersions(ops: Ops, s: Sys, a: Step)
    requires CallEnabled(s, a)
    ensures CallStep(ops, s, a).versions == s.versions && CallStep(ops, s, a).readers == s.readers
  {
    hide CallStep;
    if IsEndStep(a) {
      EndStepShape(ops, s, a);
    } else {
      TaskStepShape(ops, s, a);
    }
  }

  lemma TableKeepsVersions(s: Sys, a: Step)
    requires TableEnabled(s, a)
    ensures TableStep(s, a).versions == s.versions && TableStep(s, a).readers == s.readers
  {
    hide PastDecodeCheck;
  }

  lemma PlannerKeepsVersions(s: Sys, a: Step)
    requires PlannerEnabled(s, a)
    ensures PlannerStep(s, a).readers == s.readers && |PlannerStep(s, a).versions| >= |s.versions|
    ensures PlannerStep(s, a).versions[..|s.versions|] == s.versions
  {
    hide CompilesTo;
  }

  lemma {:induction false} RunKeepsVersion(ops: Ops, s: Sys, steps: seq<Step>, v: nat)
    requires Versioned(s) && v < |s.versions| && v in s.readers && Run(ops, s, steps).Some?
    requires forall i :: 0 <= i < |steps| ==> !steps[i].ReadDone?
    ensures var s' := Run(ops, s, steps).value;
      Versioned(s') && v < |s'.versions| && s'.versions[v] == s.versions[v] && v in s'.readers
  {
    hide Enabled, Do, Versioned;
    if steps != [] {
      var init, a := steps[..|steps| - 1], steps[|steps| - 1];
      RunKeepsVersion(ops, s, init, v);
      StepVersioned(ops, Run(ops, s, init).value, a);
      StepKeepsVersion(ops, Run(ops, s, init).value, a, v);
    }
  }

  /**
   * An inline execution holds the version that was current when it began, prepared object included, for as long as
   * no execution ends, whatever is swapped in or dropped meanwhile.
   */
  lemma ReaderKeepsVersion(ops: Ops, s: Sys, steps: seq<Step>)
    requires Versioned(s) && Enabled(s, Read) && Run(ops, Do(ops, s, Read), steps).Some?
    requires forall i :: 0 <= i < |steps| ==> !steps[i].ReadDone?
    ensures var s' := Run(ops, Do(ops, s, Read), steps).value;
      && s.current < |s.versions| && s.current < |s'.versions| && s'.versions[s.current] == s.versions[s.current]
      && s.versions[s.current].backing.Some?
  {
    hide Run, OneOwner, Numbering, Unchanged, Sourced, Referenced;
    StepVersioned(ops, s, Read);
    var now := Do(ops, s, Read);
    assert now.readers[|s.readers|] == s.current;
    RunKeepsVersion(ops, now, steps, s.current);
  }
}
