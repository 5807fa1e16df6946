/** Every job runs its own version from start to end, alone, and its outcome is delivered at most once. */
module JobSafety {
  import opened Common
  import opened Model
  import opened Semantics
  import opened Packet
  import opened Grid
  import opened Runtime
  import opened Backend
  import opened Inline
  import opened StackCore
  import opened StackProtocol
  import opened GraphState
  import opened Results
  import VersionSafety

  /** The planner and backend calls of an undisturbed job: encode, n stages in order, decode. */
  function Script(n: nat): (r: seq<Task>)
    ensures |r| == n + 2 && r[0] == EncodeTask && r[n + 1] == DecodeTask
    ensures forall k :: 0 <= k < n ==> r[k + 1] == StageTask(k)
  {
    [EncodeTask] + seq(n, k requires 0 <= k < n => StageTask(k)) + [DecodeTask]
  }

  /** Calls already made are a prefix of the script. */
  ghost predicate Scripted(v: Version, log: seq<Task>) {
    exists m :: 0 <= m <= |v.stages| + 2 && log == Script(|v.stages|)[..m]
  }

  /** The job has been encoded and has run k stages: its packet is theirs, and so is its history. */
  ghost predicate Stands(ops: Ops, v: Version, b: Job, k: nat)
    requires AllValid(b.queries)
  {
    && k <= |v.stages| && b.packet.Some? && Reached(ops, v, b, k) == Ok(b.packet.value)
    && b.log == Script(|v.stages|)[..k + 1]
  }

  /** No terminal record yet, and no stage refused. */
  predicate Open(b: Job) {
    !b.record.Terminal() && b.writes == 0 && !b.refused
  }

  predicate Untouched(b: Job) {
    Open(b) && b.packet.None? && b.log == [] && b.record.Pending?
  }

  /** Not cancelled, and nothing failed, was refused or was rejected on the job's behalf. */
  predicate Quiet(b: Job) {
    !b.cancel && !b.disturbed
  }

  /** A stage task is being rejected; a declined hand-off will also return its error. */
  predicate Refusing(b: Job, e: BraidError, unwinds: bool) {
    !b.record.Terminal() && b.writes == 0 && e != Cancelled && b.disturbed && b.refused == unwinds
  }

  /** An error is being returned: the job's first end, or its second after a declined hand-off. */
  ghost predicate Erring(ops: Ops, v: Version, b: Job, e: BraidError)
    requires AllValid(b.queries)
  {
    && (Open(b) || (b.record.Failed? && e != Cancelled && b.writes == 1 && b.refused))
    && (Quiet(b) ==> Inlined(ops, v, b) == Err(e)) && (e == Cancelled ==> b.cancel)
  }

  /** What a call may assume about its job when it stands before this task. */
  ghost predicate Before(ops: Ops, v: Version, b: Job, task: Task)
    requires AllValid(b.queries)
  {
    match task
    case EncodeTask => b.packet.None? && b.log == []
    case StageTask(k) => k < |v.stages| && Stands(ops, v, b, k)
    case DecodeTask => Stands(ops, v, b, |v.stages|)
  }

  ghost predicate CallOk(ops: Ops, v: Version, b: Job, phase: Phase)
    requires AllValid(b.queries)
  {
    match phase
    case Capturing => Untouched(b)
    case Submitting => Untouched(b)
    case Marking => Untouched(b)
    case Queued(task) => Open(b) && Before(ops, v, b, task) && (task.EncodeTask? ==> b.record.Pending?)
    case Started(task) => Open(b) && Before(ops, v, b, task) && (task.EncodeTask? ==> b.record.Pending?)
    case Working(task) => Open(b) && Before(ops, v, b, task) && (task.DecodeTask? ==> !b.doomed)
    case Handing(EncodeTask) => Open(b) && Stands(ops, v, b, 0)
    case Handing(StageTask(k)) => Open(b) && k < |v.stages| && Stands(ops, v, b, k + 1)
    case Handing(DecodeTask) => false
    case Declined(e) => Refusing(b, e, true)
    case Dropped(e) => Refusing(b, e, false)
    case Rejecting(e, unwinds) => Refusing(b, e, unwinds) && b.packet.None?
    case Unwinding(e) => Erring(ops, v, b, e)
    case Failing(e) => Erring(ops, v, b, e) && b.packet.None?
    case Storing(values) =>
      && Open(b) && !b.doomed && b.packet.None?
      && Inlined(ops, v, b) == Ok(values) && b.log == Script(|v.stages|)
    case Returning => true
  }

  /** What holds of a job whatever its calls do. */
  ghost predicate JobOk(ops: Ops, v: Version, b: Job)
    requires AllValid(b.queries)
  {
    && (b.doomed ==> b.cancel && !b.record.Completed?)
    && (b.record.Completed? ==> b.log == Script(|v.stages|))
    && (b.record.Completed? && b.record.values.Some? ==>
        Inlined(ops, v, b) == Ok(b.record.values.value) && b.delivered == [])
    && |b.delivered| <= 1 && (b.record == Completed(None) ==> b.delivered != [])
    && (b.delivered != [] ==> b.record == Completed(None) && Inlined(ops, v, b) == Ok(b.delivered[0]))
    && Scripted(v, b.log) && (b.giver.Some? <==> b.delivered != [])
    && (b.record.Terminal() <==> b.writes > 0) && b.writes <= 2 && (b.writes == 2 ==> b.refused)
    && (b.refused ==> b.disturbed)
    && (b.record.CancelledRecord? ==> b.cancel)
    && (Quiet(b) && b.record.Failed? ==>
         Inlined(ops, v, b).Err? && (b.record.error.Some? ==> Inlined(ops, v, b) == Err(b.record.error.value)))
    && (b.reported != [] ==> b.record.Failed?) && (b.record.Terminal() ==> b.packet.None?)
    && (Quiet(b) ==> forall e :: e in b.reported ==> Inlined(ops, v, b) == Err(e))
  }

  ghost predicate Placed(s: Sys) {
    && (forall j :: 0 <= j < |s.jobs| ==> s.jobs[j].version < |s.versions| && AllValid(s.jobs[j].queries))
    && (forall i :: 0 <= i < |s.calls| ==> s.calls[i].job < |s.jobs|)
    && (forall c :: 0 <= c < |s.collectors| ==> s.collectors[c].job < |s.jobs|)
  }

  /** At most one call still works for a job. */
  ghost predicate SingleCall(s: Sys) {
    forall i, k :: 0 <= i < k < |s.calls| && s.calls[i].job == s.calls[k].job ==>
      s.calls[i].phase.Returning? || s.calls[k].phase.Returning?
  }

  function VersionAt(s: Sys, j: nat): Version
    requires j < |s.jobs| && s.jobs[j].version < |s.versions|
  {
    s.versions[s.jobs[j].version].version
  }

  ghost predicate CallsOk(ops: Ops, s: Sys)
    requires Placed(s)
  {
    forall i :: 0 <= i < |s.calls| ==>
      CallOk(ops, VersionAt(s, s.calls[i].job), s.jobs[s.calls[i].job], s.calls[i].phase)
  }

  ghost predicate JobsOk(ops: Ops, s: Sys)
    requires Placed(s)
  {
    forall j :: 0 <= j < |s.jobs| ==> JobOk(ops, VersionAt(s, j), s.jobs[j])
  }

  ghost predicate Attends(s: Sys, i: nat, j: nat) {
    i < |s.calls| && s.calls[i].job == j && !s.calls[i].phase.Returning?
  }

  /** The job is listed without a terminal record, or its refused stage has not yet been written twice. */
  predicate NeedsCall(b: Job) {
    (b.listed && !b.record.Terminal()) || (b.refused && b.writes < 2)
  }

  /** No job is forgotten before its last record is written. */
  ghost predicate Attended(s: Sys) {
    forall j :: 0 <= j < |s.jobs| && NeedsCall(s.jobs[j]) ==> exists i: nat :: Attends(s, i, j)
  }

  /** Only collectors that saw the end of a job unlist it. */
  ghost predicate CollectorsOk(s: Sys)
    requires Placed(s)
  {
    forall c :: 0 <= c < |s.collectors| && s.collectors[c].got.Some? ==> s.jobs[s.collectors[c].job].record.Terminal()
  }

  ghost predicate Lawful(ops: Ops, s: Sys) {
    Placed(s) && SingleCall(s) && CallsOk(ops, s) && JobsOk(ops, s) && Attended(s) && CollectorsOk(s)
  }

  // ---------------------------------------------------------------- one call moves on

  /** The effect of most steps: call i goes on to a phase, and its job changes. */
  function Moved(s: Sys, i: nat, phase: Phase, job: Job): Sys
    requires InCall(s, i)
  {
    With(Move(s, i, phase), i, job)
  }

  /** A step of the one working call of a job cannot disturb any other call or job. */
  lemma MovedLawful(ops: Ops, s: Sys, i: nat, phase: Phase, job: Job)
    requires Lawful(ops, s) && InCall(s, i) && !s.calls[i].phase.Returning?
    requires job.version == JobOf(s, i).version && job.queries == JobOf(s, i).queries
    requires CallOk(ops, VersionOf(s, i), job, phase) && JobOk(ops, VersionOf(s, i), job)
    requires JobOf(s, i).record.Terminal() ==> job.record.Terminal()
    requires phase.Returning? ==> !NeedsCall(job)
    ensures Lawful(ops, Moved(s, i, phase, job))
  {
    hide CallOk, JobOk, Attends;
    var s', j := Moved(s, i, phase, job), s.calls[i].job;
    forall k | 0 <= k < |s'.calls|
      ensures CallOk(ops, VersionAt(s', s'.calls[k].job), s'.jobs[s'.calls[k].job], s'.calls[k].phase)
    {
      if k != i && s.calls[k].job == j {
        assert s.calls[k].phase.Returning?;
        ReturningOk(ops, VersionOf(s, i), job);
      }
    }
    forall m | 0 <= m < |s'.jobs| && NeedsCall(s'.jobs[m]) ensures exists k: nat :: Attends(s', k, m) {
      StillAttended(s, i, phase, job, m);
    }
  }

  lemma ReturningOk(ops: Ops, v: Version, b: Job)
    requires AllValid(b.queries)
    ensures CallOk(ops, v, b, Returning)
  {}

  lemma StillAttended(s: Sys, i: nat, phase: Phase, job: Job, m: nat)
    requires Placed(s) && Attended(s) && InCall(s, i) && m < |s.jobs|
    requires JobOf(s, i).record.Terminal() ==> job.record.Terminal()
    requires phase.Returning? ==> !NeedsCall(job)
    requires NeedsCall(Moved(s, i, phase, job).jobs[m])
    ensures exists k: nat :: Attends(Moved(s, i, phase, job), k, m)
  {
    var s' := Moved(s, i, phase, job);
    if m == s.calls[i].job {
      assert Attends(s', i, m);
    } else {
      var k: nat :| Attends(s, k, m);
      assert Attends(s', k, m);
    }
  }

  // ---------------------------------------------------------------- the steps of a call

  lemma SameJob(s: Sys, i: nat, phase: Phase)
    requires InCall(s, i)
    ensures Moved(s, i, phase, JobOf(s, i)) == Move(s, i, phase)
  {}

  /** A step that leaves the job as it is. */
  lemma PhaseLawful(ops: Ops, s: Sys, i: nat, phase: Phase)
    requires Lawful(ops, s) && InCall(s, i) && !s.calls[i].phase.Returning? && !phase.Returning?
    requires CallOk(ops, VersionOf(s, i), JobOf(s, i), phase)
    ensures Lawful(ops, Move(s, i, phase))
  {
    hide CallOk, JobOk, SingleCall, Attended, Moved;
    SameJob(s, i, phase);
    MovedLawful(ops, s, i, phase, JobOf(s, i));
  }

  /** What Lawful says of one call. */
  lemma AtCall(ops: Ops, s: Sys, i: nat)
    requires Lawful(ops, s) && i < |s.calls|
    ensures InCall(s, i) && CallOk(ops, VersionOf(s, i), JobOf(s, i), s.calls[i].phase)
      && JobOk(ops, VersionOf(s, i), JobOf(s, i))
  {
    hide CallOk, JobOk, Attended, SingleCall;
  }

  lemma ListLawful(ops: Ops, s: Sys, i: nat)
    requires Lawful(ops, s) && InCall(s, i) && s.calls[i].phase.Capturing?
    ensures Lawful(ops, ListStep(s, i))
  {
    hide Lawful, Inlined, Script, Scripted;
    AtCall(ops, s, i);
    MovedLawful(ops, s, i, Submitting, JobOf(s, i).(listed := true));
  }

  lemma SubmitLawful(ops: Ops, s: Sys, i: nat, ok: bool)
    requires Lawful(ops, s) && InCall(s, i) && s.calls[i].phase.Submitting?
    ensures Lawful(ops, SubmitStep(s, i, ok))
  {
    hide Lawful, Inlined, Script, Scripted;
    AtCall(ops, s, i);
    if ok {
      PhaseLawful(ops, s, i, Queued(EncodeTask));
    } else {
      MovedLawful(ops, s, i, Returning, JobOf(s, i).(listed := false, disturbed := true));
    }
  }

  lemma CheckLawful(ops: Ops, s: Sys, i: nat)
    requires Lawful(ops, s) && InCall(s, i) && s.calls[i].phase.Started?
    ensures Lawful(ops, CheckStep(s, i))
  {
    hide Lawful, Inlined, Script, Stands;
    AtCall(ops, s, i);
    var task := s.calls[i].phase.task;
    var go := if task.EncodeTask? then Marking else Working(task);
    PhaseLawful(ops, s, i, if JobOf(s, i).cancel then Unwinding(BraidError.Cancelled) else go);
  }

  lemma MarkLawful(ops: Ops, s: Sys, i: nat)
    requires Lawful(ops, s) && InCall(s, i) && s.calls[i].phase.Marking?
    ensures Lawful(ops, MarkStep(s, i))
  {
    hide Lawful, Inlined, Script, Scripted;
    AtCall(ops, s, i);
    MovedLawful(ops, s, i, Working(EncodeTask), JobOf(s, i).(record := Active));
  }

  lemma ScriptNext(n: nat, k: nat)
    requires k <= n + 1
    ensures Script(n)[..k] + [Script(n)[k]] == Script(n)[..k + 1]
    ensures Script(n)[..n + 2] == Script(n)
    ensures Script(n)[..0] == []
  {}

  lemma EncodedStands(ops: Ops, v: Version, b: Job, packet: View)
    requires AllValid(b.queries) && b.log == [EncodeTask] && b.packet == Some(packet)
    requires Encoded(v.plan.meta.dimension, b.queries, Loaded(Cleared(b.start), v.plan.statics)) == Ok(packet)
    ensures Stands(ops, v, b, 0)
  {
    hide Encoded, Loaded, Cleared;
    assert v.stages[..0] == [];
    ScriptNext(|v.stages|, 0);
  }

  lemma StageStands(ops: Ops, v: Version, b: Job, k: nat, packet: View, b': Job)
    requires AllValid(b.queries) && k < |v.stages| && Stands(ops, v, b, k)
    requires RunStage(ops, v.stages[k], b.packet.value) == Ok(packet)
    requires b' == b.(log := b.log + [StageTask(k)], packet := Some(packet))
    ensures Stands(ops, v, b', k + 1)
  {
    hide Encoded, Loaded, Cleared, RunStage;
    assert v.stages[..k + 1][..k] == v.stages[..k];
    ScriptNext(|v.stages|, k + 1);
  }

  lemma DecodedInlined(ops: Ops, v: Version, b: Job, values: Values)
    requires AllValid(b.queries) && Stands(ops, v, b, |v.stages|)
    requires Decoded(v.plan.meta.finalSlot, b.packet.value) == Ok(values)
    ensures Inlined(ops, v, b) == Ok(values) && b.log + [DecodeTask] == Script(|v.stages|)
  {
    hide Encoded, Loaded, Cleared, RunStages, Decoded;
    assert v.stages[..|v.stages|] == v.stages;
    ScriptNext(|v.stages|, |v.stages| + 1);
  }

  lemma ScriptedNext(v: Version, log: seq<Task>, m: nat)
    requires m <= |v.stages| + 1 && log == Script(|v.stages|)[..m]
    ensures Scripted(v, log + [Script(|v.stages|)[m]])
  {
    ScriptNext(|v.stages|, m);
  }

  /** A job that is not finished stays in order while its history follows the script. */
  lemma RunningJobOk(ops: Ops, v: Version, b: Job, b': Job)
    requires AllValid(b.queries) && JobOk(ops, v, b) && !b.record.Terminal()
    requires b' == b.(packet := b'.packet, log := b'.log, start := b'.start, disturbed := b'.disturbed)
    requires Scripted(v, b'.log) && (b.disturbed ==> b'.disturbed)
    ensures JobOk(ops, v, b')
  {
    hide Inlined, Script, Scripted;
    assert Quiet(b') ==> Quiet(b);
  }

  lemma EncodeErrs(ops: Ops, v: Version, b: Job, e: BraidError)
    requires AllValid(b.queries)
    requires Encoded(v.plan.meta.dimension, b.queries, Loaded(Cleared(b.start), v.plan.statics)) == Err(e)
    ensures Inlined(ops, v, b) == Err(e)
  {
    hide Encoded, Loaded, Cleared;
  }

  lemma StageErrs(ops: Ops, v: Version, b: Job, k: nat, e: BraidError)
    requires AllValid(b.queries) && k < |v.stages| && Stands(ops, v, b, k)
    requires RunStage(ops, v.stages[k], b.packet.value) == Err(e)
    ensures Inlined(ops, v, b) == Err(e)
  {
    hide Encoded, Loaded, Cleared, RunStage;
    assert v.stages[..k + 1][..k] == v.stages[..k];
    var encoded := Encoded(v.plan.meta.dimension, b.queries, Loaded(Cleared(b.start), v.plan.statics)).value;
    RunPrefixFails(ops, v.stages, encoded, k + 1);
  }

  lemma DecodeErrs(ops: Ops, v: Version, b: Job, e: BraidError)
    requires AllValid(b.queries) && Stands(ops, v, b, |v.stages|)
    requires Decoded(v.plan.meta.finalSlot, b.packet.value) == Err(e)
    ensures Inlined(ops, v, b) == Err(e)
  {
    hide Encoded, Loaded, Cleared, RunStages, Decoded;
    assert v.stages[..|v.stages|] == v.stages;
  }

  /** The inline result does not depend on what has happened to the job. */
  lemma SameInlined(ops: Ops, v: Version, b: Job, b': Job)
    requires AllValid(b.queries) && b'.queries == b.queries && b'.start == b.start
    ensures Inlined(ops, v, b') == Inlined(ops, v, b)
  {}

  lemma EncodeLawful(ops: Ops, s: Sys, i: nat, fault: Option<BraidError>, view: View)
    requires Lawful(ops, s) && InCall(s, i) && s.calls[i].phase == Working(EncodeTask)
    requires fault == Some(BraidError.Cancelled) ==> JobOf(s, i).cancel
    ensures Lawful(ops, EncodeStep(s, i, fault, view))
  {
    hide Lawful, JobOk, Stands, Encoded, Loaded, Cleared, Script, Scripted, Inlined;
    AtCall(ops, s, i);
    var b, v := JobOf(s, i), VersionOf(s, i);
    ScriptNext(|v.stages|, 0);
    ScriptedNext(v, b.log, 0);
    var logged := b.(log := b.log + [EncodeTask], start := view, disturbed := b.disturbed || fault.Some?);
    RunningJobOk(ops, v, b, logged);
    match Faulty(fault, Encoded(v.plan.meta.dimension, b.queries, Loaded(Cleared(view), v.plan.statics)))
    case Err(e) =>
      if fault.None? {
        EncodeErrs(ops, v, logged, e);
        InlineNeverCancelled(ops, v, logged);
      }
      MovedLawful(ops, s, i, Unwinding(e), logged);
    case Ok(packet) =>
      var now := logged.(packet := Some(packet));
      RunningJobOk(ops, v, b, now);
      EncodedStands(ops, v, now, packet);
      MovedLawful(ops, s, i, Handing(EncodeTask), now);
  }

  lemma StageLawful(ops: Ops, s: Sys, i: nat, k: nat, fault: Option<BraidError>, view: View)
    requires Lawful(ops, s) && InCall(s, i) && s.calls[i].phase == Working(StageTask(k))
    requires fault == Some(BraidError.Cancelled) ==> JobOf(s, i).cancel
    ensures Lawful(ops, StageStep(ops, s, i, k, fault, view))
  {
    hide Lawful, JobOk, RunStage, Script, Scripted, Reached, Inlined;
    AtCall(ops, s, i);
    var b, v := JobOf(s, i), VersionOf(s, i);
    ScriptedNext(v, b.log, k + 1);
    var logged := b.(log := b.log + [StageTask(k)], disturbed := b.disturbed || fault.Some?);
    match Faulty(fault, RunStage(ops, v.stages[k], b.packet.value))
    case Err(e) =>
      var now := logged.(packet := Some(view));
      RunningJobOk(ops, v, b, now);
      if fault.None? {
        StageErrs(ops, v, b, k, e);
        InlineNeverCancelled(ops, v, b);
        SameInlined(ops, v, b, now);
      }
      MovedLawful(ops, s, i, Unwinding(e), now);
    case Ok(packet) =>
      var now := logged.(packet := Some(packet));
      RunningJobOk(ops, v, b, now);
      StageStands(ops, v, b, k, packet, now);
      MovedLawful(ops, s, i, Handing(StageTask(k)), now);
  }

  lemma DecodeLawful(ops: Ops, s: Sys, i: nat, fault: Option<BraidError>)
    requires Lawful(ops, s) && InCall(s, i) && s.calls[i].phase == Working(DecodeTask)
    requires fault == Some(BraidError.Cancelled) ==> JobOf(s, i).cancel
    ensures Lawful(ops, DecodeStep(s, i, fault))
  {
    hide Lawful, JobOk, Decoded, Script, Scripted, Reached, Inlined;
    AtCall(ops, s, i);
    var b, v := JobOf(s, i), VersionOf(s, i);
    ScriptedNext(v, b.log, |v.stages| + 1);
    var now := b.(log := b.log + [DecodeTask], disturbed := b.disturbed || fault.Some?, packet := None);
    RunningJobOk(ops, v, b, now);
    SameInlined(ops, v, b, now);
    match Faulty(fault, Decoded(v.plan.meta.finalSlot, b.packet.value))
    case Err(e) =>
      if fault.None? {
        DecodeErrs(ops, v, b, e);
        InlineNeverCancelled(ops, v, b);
      }
      MovedLawful(ops, s, i, Unwinding(e), now);
    case Ok(values) =>
      DecodedInlined(ops, v, b, values);
      MovedLawful(ops, s, i, Storing(values), now);
  }

  lemma RefuseLawful(ops: Ops, s: Sys, i: nat)
    requires Lawful(ops, s) && InCall(s, i) && s.calls[i].phase.Queued?
    ensures Lawful(ops, RefuseStep(s, i))
  {
    hide Lawful, Script, Scripted, Stands, Inlined;
    AtCall(ops, s, i);
    MovedLawful(ops, s, i, Dropped(ExecutorShutdown), JobOf(s, i).(disturbed := true));
  }

  lemma RejectLawful(ops: Ops, s: Sys, i: nat)
    requires Lawful(ops, s) && InCall(s, i) && (s.calls[i].phase.Declined? || s.calls[i].phase.Dropped?)
    ensures Lawful(ops, RejectStep(s, i))
  {
    hide Lawful, Inlined, Script, Scripted;
    AtCall(ops, s, i);
    MovedLawful(ops, s, i, Rejecting(s.calls[i].phase.error, s.calls[i].phase.Declined?), JobOf(s, i).(packet := None));
  }

  lemma RejectedLawful(ops: Ops, s: Sys, i: nat)
    requires Lawful(ops, s) && InCall(s, i) && s.calls[i].phase.Rejecting?
    ensures Lawful(ops, RejectedStep(s, i))
  {
    hide Lawful, Inlined, Script, Scripted;
    AtCall(ops, s, i);
    var e := s.calls[i].phase.error;
    MovedLawful(ops, s, i, if s.calls[i].phase.unwinds then Unwinding(e) else Returning,
                JobOf(s, i).(record := Failed(Some(e)), writes := JobOf(s, i).writes + 1));
  }

  lemma CleanLawful(ops: Ops, s: Sys, i: nat)
    requires Lawful(ops, s) && InCall(s, i) && s.calls[i].phase.Unwinding?
    ensures Lawful(ops, CleanStep(s, i))
  {
    hide Lawful, Inlined, Script, Scripted;
    AtCall(ops, s, i);
    var job := JobOf(s, i).(packet := None);
    SameInlined(ops, VersionOf(s, i), JobOf(s, i), job);
    MovedLawful(ops, s, i, Failing(s.calls[i].phase.error), job);
  }

  lemma FailLawful(ops: Ops, s: Sys, i: nat)
    requires Lawful(ops, s) && InCall(s, i) && s.calls[i].phase.Failing?
    ensures Lawful(ops, FailStep(s, i))
  {
    hide Lawful, Inlined, Script, Scripted;
    AtCall(ops, s, i);
    var e, b, v := s.calls[i].phase.error, JobOf(s, i), VersionOf(s, i);
    var job := b.(record := if e == BraidError.Cancelled then CancelledRecord else Failed(Some(e)),
                  writes := b.writes + 1);
    SameInlined(ops, v, b, job);
    InlineNeverCancelled(ops, v, b);
    MovedLawful(ops, s, i, Returning, job);
  }

  lemma InlineNeverCancelled(ops: Ops, v: Version, b: Job)
    requires AllValid(b.queries)
    ensures Inlined(ops, v, b) != Err(BraidError.Cancelled)
  {
    hide Executed;
    NeverCancelled(ops, v.plan, v.stages, b.queries, b.start);
  }

  lemma StoreLawful(ops: Ops, s: Sys, i: nat)
    requires Lawful(ops, s) && InCall(s, i) && s.calls[i].phase.Storing?
    ensures Lawful(ops, StoreStep(s, i))
  {
    hide Lawful, Inlined, Script, Scripted;
    AtCall(ops, s, i);
    var b := JobOf(s, i);
    var job := b.(record := Completed(Some(s.calls[i].phase.values)), writes := b.writes + 1);
    SameInlined(ops, VersionOf(s, i), b, job);
    MovedLawful(ops, s, i, Returning, job);
  }

  /** The next task takes over from a call that has nothing left to do. */
  lemma HandLawful(ops: Ops, s: Sys, i: nat, ok: bool)
    requires Lawful(ops, s) && InCall(s, i) && s.calls[i].phase.Handing?
    ensures Lawful(ops, HandStep(s, i, ok))
  {
    hide Lawful, Script, Reached, Inlined;
    AtCall(ops, s, i);
    var b, v := JobOf(s, i), VersionOf(s, i);
    var next := NextTask(s.calls[i].phase.task, |v.stages|);
    if ok {
      HandedOver(ops, s, i, next);
    } else {
      MovedLawful(ops, s, i, if next.StageTask? then Declined(ExecutorShutdown) else Unwinding(ExecutorShutdown),
                  b.(refused := b.refused || next.StageTask?, disturbed := true));
    }
  }

  lemma HandedOver(ops: Ops, s: Sys, i: nat, next: Task)
    requires Lawful(ops, s) && InCall(s, i) && !s.calls[i].phase.Returning?
    requires CallOk(ops, VersionOf(s, i), JobOf(s, i), Queued(next))
    ensures Lawful(ops,
                   Move(s, i, Returning).(calls := Move(s, i, Returning).calls + [Call(s.calls[i].job, Queued(next))]))
  {
    hide CallOk, JobOk, Attends;
    var j := s.calls[i].job;
    var s' := Move(s, i, Returning).(calls := Move(s, i, Returning).calls + [Call(j, Queued(next))]);
    ReturningOk(ops, VersionOf(s, i), JobOf(s, i));
    assert CallsOk(ops, s') by {
      forall k | 0 <= k < |s'.calls|
        ensures CallOk(ops, VersionAt(s', s'.calls[k].job), s'.jobs[s'.calls[k].job], s'.calls[k].phase)
      {}
    }
    forall m | 0 <= m < |s'.jobs| && NeedsCall(s'.jobs[m]) ensures exists k: nat :: Attends(s', k, m) {
      if m == j {
        AttendsAt(s', |s.calls|);
      } else {
        var k: nat :| Attends(s, k, m);
        AttendsSame(s, s', k, m);
      }
    }
  }

  lemma AttendsAt(s: Sys, i: nat)
    requires i < |s.calls| && !s.calls[i].phase.Returning?
    ensures Attends(s, i, s.calls[i].job)
  {}

  lemma AttendsSame(s: Sys, s': Sys, k: nat, m: nat)
    requires Attends(s, k, m) && |s'.calls| >= |s.calls|
    requires k < |s.calls| && s.calls[k].job == m ==> s'.calls[k] == s.calls[k]
    ensures Attends(s', k, m)
  {}

  lemma ReturnLawful(ops: Ops, s: Sys, i: nat)
    requires Lawful(ops, s) && InCall(s, i) && s.calls[i].phase.Returning?
    ensures Lawful(ops, ReturnStep(s, i))
  {
    hide CallOk, JobOk, NeedsCall, SingleCall;
    var s' := ReturnStep(s, i);
    assert forall k :: 0 <= k < |s'.calls| ==> s'.calls[k] == if k < i then s.calls[k] else s.calls[k + 1];
    assert SingleCall(s') by { ReturnSingle(s, i); }
    forall m | 0 <= m < |s'.jobs| && NeedsCall(s'.jobs[m]) ensures exists k: nat :: Attends(s', k, m) {
      var k: nat :| Attends(s, k, m);
      assert Attends(s', if k < i then k else k - 1, m);
    }
  }

  lemma ReturnSingle(s: Sys, i: nat)
    requires SingleCall(s) && i < |s.calls|
    ensures SingleCall(ReturnStep(s, i))
  {
    var s' := ReturnStep(s, i);
    assert forall k :: 0 <= k < |s'.calls| ==> s'.calls[k] == if k < i then s.calls[k] else s.calls[k + 1];
  }

  // ---------------------------------------------------------------- steps of cancellation and collection

  /** A change to a job that none of its calls minds. */
  lemma JobChanged(ops: Ops, s: Sys, j: nat, job: Job)
    requires Lawful(ops, s) && j < |s.jobs| && job.version == s.jobs[j].version && job.queries == s.jobs[j].queries
    requires JobOk(ops, VersionAt(s, j), job)
    requires forall i :: 0 <= i < |s.calls| && s.calls[i].job == j ==>
      CallOk(ops, VersionAt(s, j), job, s.calls[i].phase)
    requires NeedsCall(job) ==> NeedsCall(s.jobs[j])
    requires job.record.Terminal() == s.jobs[j].record.Terminal()
    ensures Lawful(ops, s.(jobs := s.jobs[j := job]))
  {
    hide CallOk, JobOk, Attends;
    var s' := s.(jobs := s.jobs[j := job]);
    forall m, k: nat | 0 <= m < |s.jobs| && Attends(s, k, m) ensures Attends(s', k, m) { AttendsCalls(s, s', k, m); }
  }

  lemma AttendsCalls(s: Sys, s': Sys, k: nat, m: nat)
    requires Attends(s, k, m) && s'.calls == s.calls
    ensures Attends(s', k, m)
  {}

  lemma CancelLawful(ops: Ops, s: Sys, j: nat)
    requires Lawful(ops, s) && j < |s.jobs|
    ensures Lawful(ops, CancelStep(s, j))
  {
    hide Lawful, Script, Scripted, PastDecodeCheck, Executed, Encoded, RunStages, Decoded;
    JobAt(ops, s, j);
    var b := s.jobs[j];
    var job := b.(cancel := true, doomed := b.doomed || !PastDecodeCheck(s, j));
    CancelJobOk(ops, s, j, job);
    forall i | 0 <= i < |s.calls| && s.calls[i].job == j ensures CallOk(ops, VersionAt(s, j), job, s.calls[i].phase) {
      AtCall(ops, s, i);
      CancelCallOk(ops, s, i, job);
    }
    JobChanged(ops, s, j, job);
  }

  lemma JobAt(ops: Ops, s: Sys, j: nat)
    requires Lawful(ops, s) && j < |s.jobs|
    ensures s.jobs[j].version < |s.versions| && AllValid(s.jobs[j].queries) && JobOk(ops, VersionAt(s, j), s.jobs[j])
  {
    hide CallOk, JobOk;
  }

  lemma CancelJobOk(ops: Ops, s: Sys, j: nat, job: Job)
    requires j < |s.jobs| && s.jobs[j].version < |s.versions| && AllValid(s.jobs[j].queries)
    requires JobOk(ops, VersionAt(s, j), s.jobs[j])
    requires job == s.jobs[j].(cancel := true, doomed := s.jobs[j].doomed || !PastDecodeCheck(s, j))
    ensures JobOk(ops, VersionAt(s, j), job)
  {
    hide Script, Scripted, Executed;
  }

  lemma CancelCallOk(ops: Ops, s: Sys, i: nat, job: Job)
    requires InCall(s, i) && CallOk(ops, VersionOf(s, i), JobOf(s, i), s.calls[i].phase)
    requires job == JobOf(s, i).(cancel := true, doomed := JobOf(s, i).doomed || !PastDecodeCheck(s, s.calls[i].job))
    ensures CallOk(ops, VersionOf(s, i), job, s.calls[i].phase)
  {
    hide Script, Executed, Encoded, RunStages;
  }

  /** Records that are already terminal tolerate collection. */
  lemma TakeLawful(ops: Ops, s: Sys, c: nat)
    requires Lawful(ops, s) && c < |s.collectors| && s.collectors[c].job < |s.jobs|
    requires s.jobs[s.collectors[c].job].record.Terminal()
    ensures Lawful(ops, TakeStep(s, c))
  {
    hide Lawful, Script, Scripted, Executed, Encoded, RunStages, CallOk, JobOk, Taken, Outcome;
    var j := s.collectors[c].job;
    JobAt(ops, s, j);
    var job := Taken(s.jobs[j], c);
    TakenOk(ops, VersionAt(s, j), s.jobs[j], c);
    forall i | 0 <= i < |s.calls| && s.calls[i].job == j ensures CallOk(ops, VersionAt(s, j), job, s.calls[i].phase) {
      AtCall(ops, s, i);
      TakenCallOk(ops, VersionAt(s, j), s.jobs[j], c, s.calls[i].phase);
    }
    JobChanged(ops, s, j, job);
    var mid, s' := s.(jobs := s.jobs[j := job]), TakeStep(s, c);
    forall d | 0 <= d < |s'.collectors|
      ensures s'.collectors[d].job < |mid.jobs|
        && (s'.collectors[d].got.Some? ==> mid.jobs[s'.collectors[d].job].record.Terminal())
    {
      CollectorAt(ops, s, d);
    }
    CollectorsLawful(ops, mid, s');
  }

  lemma TakenOk(ops: Ops, v: Version, b: Job, c: nat)
    requires AllValid(b.queries) && JobOk(ops, v, b) && b.record.Terminal()
    ensures var b' := Taken(b, c);
      && JobOk(ops, v, b') && b'.version == b.version && b'.queries == b.queries && b'.record.Terminal()
      && (NeedsCall(b') ==> NeedsCall(b))
  {
    hide Script, Scripted, Executed;
    if b.record.Completed? && b.record.values.Some? {
      assert b.delivered + [b.record.values.value] == [b.record.values.value];
    }
  }

  lemma TakenCallOk(ops: Ops, v: Version, b: Job, c: nat, phase: Phase)
    requires AllValid(b.queries) && JobOk(ops, v, b) && b.record.Terminal() && CallOk(ops, v, b, phase)
    ensures CallOk(ops, v, Taken(b, c), phase)
  {
    hide Script, Scripted, Executed, Encoded, RunStages;
  }

  lemma CollectorsLawful(ops: Ops, s: Sys, s': Sys)
    requires Lawful(ops, s) && s' == s.(collectors := s'.collectors)
    requires forall c :: 0 <= c < |s'.collectors| ==>
      && s'.collectors[c].job < |s.jobs|
      && (s'.collectors[c].got.Some? ==> s.jobs[s'.collectors[c].job].record.Terminal())
    ensures Lawful(ops, s')
  {
    hide CallOk, JobOk, Attends, SingleCall;
    assert SingleCall(s') by { SingleSame(s, s'); }
    forall m, k: nat | 0 <= m < |s.jobs| && Attends(s, k, m) ensures Attends(s', k, m) { AttendsCalls(s, s', k, m); }
  }

  lemma SingleSame(s: Sys, s': Sys)
    requires SingleCall(s) && s'.calls == s.calls
    ensures SingleCall(s')
  {}

  lemma CollectorAt(ops: Ops, s: Sys, c: nat)
    requires Lawful(ops, s) && c < |s.collectors|
    ensures s.collectors[c].job < |s.jobs|
    ensures s.collectors[c].got.Some? ==> s.jobs[s.collectors[c].job].record.Terminal()
  {
    hide CallOk, JobOk;
  }

  lemma UnlistLawful(ops: Ops, s: Sys, c: nat)
    requires Lawful(ops, s) && c < |s.collectors| && s.collectors[c].got.Some? && s.collectors[c].job < |s.jobs|
    ensures Lawful(ops, UnlistStep(s, c))
  {
    hide Lawful, Script, Scripted, Executed, Encoded, RunStages;
    var j := s.collectors[c].job;
    JobAt(ops, s, j);
    var job := s.jobs[j].(listed := false);
    forall i | 0 <= i < |s.calls| && s.calls[i].job == j ensures CallOk(ops, VersionAt(s, j), job, s.calls[i].phase) {
      AtCall(ops, s, i);
    }
    JobChanged(ops, s, j, job);
    var mid, s' := s.(jobs := s.jobs[j := job]), UnlistStep(s, c);
    forall d | 0 <= d < |s'.collectors|
      ensures s'.collectors[d].job < |mid.jobs|
        && (s'.collectors[d].got.Some? ==> mid.jobs[s'.collectors[d].job].record.Terminal())
    {
      CollectorAt(ops, s, d);
    }
    CollectorsLawful(ops, mid, s');
  }

  lemma CollectLawful(ops: Ops, s: Sys, j: nat)
    requires Lawful(ops, s) && j < |s.jobs|
    ensures Lawful(ops, s.(collectors := s.collectors + [Collector(j, None, false)]))
  {
    hide Lawful;
    forall c | 0 <= c < |s.collectors|
      ensures s.collectors[c].job < |s.jobs|
      ensures s.collectors[c].got.Some? ==> s.jobs[s.collectors[c].job].record.Terminal()
    {
      CollectorAt(ops, s, c);
    }
    CollectorsLawful(ops, s, s.(collectors := s.collectors + [Collector(j, None, false)]));
  }

  lemma DispatchLawful(ops: Ops, s: Sys, queries: seq<ChunkQuery>)
    requires Lawful(ops, s) && AllValid(queries) && s.current < |s.versions|
    ensures Lawful(ops, DispatchStep(s, queries))
  {
    hide CallOk, JobOk, Attends;
    var s' := DispatchStep(s, queries);
    FreshOk(ops, s', |s.jobs|);
    forall k | 0 <= k < |s'.calls|
      ensures CallOk(ops, VersionAt(s', s'.calls[k].job), s'.jobs[s'.calls[k].job], s'.calls[k].phase)
    {
      if k < |s.calls| {
        assert s'.calls[k] == s.calls[k] && s'.jobs[s.calls[k].job] == s.jobs[s.calls[k].job];
      }
    }
    forall m | 0 <= m < |s'.jobs| && NeedsCall(s'.jobs[m]) ensures exists k: nat :: Attends(s', k, m) {
      var k: nat :| Attends(s, k, m);
      AttendsIn(s, s', k, m);
    }
  }

  lemma AttendsIn(s: Sys, s': Sys, k: nat, m: nat)
    requires Attends(s, k, m) && |s'.calls| >= |s.calls| && s'.calls[..|s.calls|] == s.calls
    ensures Attends(s', k, m)
  {
    assert s'.calls[k] == s'.calls[..|s.calls|][k];
  }

  /** A job nobody has touched yet. */
  lemma FreshOk(ops: Ops, s: Sys, j: nat)
    requires j < |s.jobs| && s.jobs[j].version < |s.versions| && AllValid(s.jobs[j].queries)
    requires Untouched(s.jobs[j]) && !s.jobs[j].doomed && s.jobs[j].delivered == []
      && s.jobs[j].reported == [] && s.jobs[j].giver.None?
    ensures JobOk(ops, VersionAt(s, j), s.jobs[j]) && CallOk(ops, VersionAt(s, j), s.jobs[j], Capturing)
  {
    ScriptNext(|VersionAt(s, j).stages|, 0);
    assert Scripted(VersionAt(s, j), []);
  }

  /** Steps of versions do not reach into jobs: what a version index stands for never changes. */
  lemma VersionsLawful(ops: Ops, s: Sys, s': Sys)
    requires Lawful(ops, s) && s'.jobs == s.jobs && s'.calls == s.calls && s'.collectors == s.collectors
    requires |s'.versions| >= |s.versions|
    requires forall v :: 0 <= v < |s.versions| ==> s'.versions[v].version == s.versions[v].version
    ensures Lawful(ops, s')
  {
    hide CallOk, JobOk, Attends, SingleCall;
    assert SingleCall(s') by { SingleSame(s, s'); }
    forall m, k: nat | 0 <= m < |s.jobs| && Attends(s, k, m) ensures Attends(s', k, m) { AttendsCalls(s, s', k, m); }
    forall j | 0 <= j < |s.jobs| ensures VersionAt(s', j) == VersionAt(s, j) {}
  }

  // ---------------------------------------------------------------- every reachable state

  lemma TaskStepLawful(ops: Ops, s: Sys, a: Step)
    requires Lawful(ops, s) && CallEnabled(s, a) && !IsEndStep(a)
    ensures Lawful(ops, CallStep(ops, s, a))
  {
    hide Lawful, ListStep, SubmitStep, RefuseStep, CheckStep, MarkStep, WorkStep, HandStep, Move;
    match a
    case List(i) => ListLawful(ops, s, i);
    case Submit(i, ok) => SubmitLawful(ops, s, i, ok);
    case Start(i) => StartLawful(ops, s, i);
    case Refuse(i) => RefuseLawful(ops, s, i);
    case CheckCancel(i) => CheckLawful(ops, s, i);
    case Mark(i) => MarkLawful(ops, s, i);
    case Work(i, fault, view) => WorkLawful(ops, s, i, fault, view);
    case Hand(i, ok) => HandLawful(ops, s, i, ok);
  }

  lemma EndStepLawful(ops: Ops, s: Sys, a: Step)
    requires Lawful(ops, s) && CallEnabled(s, a) && IsEndStep(a)
    ensures Lawful(ops, CallStep(ops, s, a))
  {
    hide Lawful, RejectStep, RejectedStep, CleanStep, FailStep, StoreStep, Move;
    match a
    case Reject(i) => RejectLawful(ops, s, i);
    case Rejected(i) => RejectedLawful(ops, s, i);
    case Clean(i) => CleanLawful(ops, s, i);
    case Fail(i) => FailLawful(ops, s, i);
    case Store(i) => StoreLawful(ops, s, i);
  }

  lemma WorkLawful(ops: Ops, s: Sys, i: nat, fault: Option<BraidError>, view: View)
    requires Lawful(ops, s) && InCall(s, i) && s.calls[i].phase.Working?
    requires fault == Some(BraidError.Cancelled) ==> JobOf(s, i).cancel
    ensures Lawful(ops, WorkStep(ops, s, i, fault, view))
  {
    hide Lawful, EncodeStep, StageStep, DecodeStep;
    match s.calls[i].phase.task
    case EncodeTask => EncodeLawful(ops, s, i, fault, view);
    case StageTask(k) => StageLawful(ops, s, i, k, fault, view);
    case DecodeTask => DecodeLawful(ops, s, i, fault);
  }

  lemma StartLawful(ops: Ops, s: Sys, i: nat)
    requires Lawful(ops, s) && InCall(s, i) && s.calls[i].phase.Queued?
    ensures Lawful(ops, Move(s, i, Started(s.calls[i].phase.task)))
  {
    hide Lawful, Script, Stands;
    AtCall(ops, s, i);
    PhaseLawful(ops, s, i, Started(s.calls[i].phase.task));
  }

  lemma TableStepLawful(ops: Ops, s: Sys, a: Step)
    requires Lawful(ops, s) && s.current < |s.versions| && TableEnabled(s, a)
    ensures Lawful(ops, TableStep(s, a))
  {
    hide Lawful, TakeStep, UnlistStep, CancelStep, ReturnStep, DispatchStep, PastDecodeCheck;
    match a
    case Dispatch(queries) => DispatchLawful(ops, s, queries);
    case Return(i) => ReturnLawful(ops, s, i);
    case Cancel(j) => CancelLawful(ops, s, j);
    case Collect(j) => CollectLawful(ops, s, j);
    case Take(c) => TakeLawful(ops, s, c);
    case Unlist(c) => UnlistLawful(ops, s, c);
  }

  lemma StepLawful(ops: Ops, s: Sys, a: Step)
    requires Lawful(ops, s) && VersionSafety.Versioned(s) && Enabled(s, a)
    ensures Lawful(ops, Do(ops, s, a))
  {
    hide Lawful, VersionSafety.Versioned, CallEnabled, TableEnabled, VersionEnabled, PlannerEnabled;
    hide CallStep, TableStep, VersionStep, PlannerStep;
    if IsEndStep(a) {
      EndStepLawful(ops, s, a);
    } else if IsCallStep(a) {
      TaskStepLawful(ops, s, a);
    } else if IsTableStep(a) {
      CurrentIn(s);
      TableStepLawful(ops, s, a);
    } else {
      VersionStepLawful(ops, s, a);
    }
  }

  lemma CurrentIn(s: Sys)
    requires VersionSafety.Versioned(s)
    ensures s.current < |s.versions|
  {
    hide VersionSafety.OneOwner, VersionSafety.Sourced;
  }

  lemma VersionStepLawful(ops: Ops, s: Sys, a: Step)
    requires Lawful(ops, s) && Enabled(s, a) && !IsCallStep(a) && !IsTableStep(a)
    ensures Lawful(ops, Do(ops, s, a))
  {
    hide Lawful, Referenced, CompilesTo, CallStep, TableStep;
    VersionsLawful(ops, s, Do(ops, s, a));
  }

  lemma CreatedLawful(ops: Ops, first: Version, planner: State)
    ensures Lawful(ops, Created(first, planner))
  {}

  lemma {:induction false} RunSafe(ops: Ops, s: Sys, steps: seq<Step>)
    requires VersionSafety.Versioned(s) && Lawful(ops, s) && Run(ops, s, steps).Some?
    ensures VersionSafety.Versioned(Run(ops, s, steps).value) && Lawful(ops, Run(ops, s, steps).value)
  {
    hide VersionSafety.Versioned, Lawful, Do, Enabled;
    if steps != [] {
      var init, a := steps[..|steps| - 1], steps[|steps| - 1];
      RunSafe(ops, s, init);
      VersionSafety.StepVersioned(ops, Run(ops, s, init).value, a);
      StepLawful(ops, Run(ops, s, init).value, a);
    }
  }

  /** Safety over every run from creation, with every interleaving of jobs, collectors and updates. */
  lemma StackSafe(ops: Ops, first: Version, planner: State, steps: seq<Step>)
    requires CompilesTo(planner, first.plan, first.stages) && Run(ops, Created(first, planner), steps).Some?
    ensures VersionSafety.Versioned(Run(ops, Created(first, planner), steps).value)
    ensures Lawful(ops, Run(ops, Created(first, planner), steps).value)
  {
    hide VersionSafety.Versioned, Lawful, CompilesTo;
    VersionSafety.CreatedVersioned(first, planner);
    CreatedLawful(ops, first, planner);
    RunSafe(ops, Created(first, planner), steps);
  }

  // ---------------------------------------------------------------- what this means for a job

  /** Async refines inline: a completed job holds what inline execution returns for its queries and its version. */
  lemma AsyncIsInline(ops: Ops, s: Sys, j: nat)
    requires Lawful(ops, s) && j < |s.jobs| && s.jobs[j].record.Completed?
    ensures s.jobs[j].version < |s.versions| && AllValid(s.jobs[j].queries)
    ensures s.jobs[j].record.values.Some? ==>
      Inlined(ops, VersionAt(s, j), s.jobs[j]) == Ok(s.jobs[j].record.values.value)
    ensures s.jobs[j].delivered != [] ==> Inlined(ops, VersionAt(s, j), s.jobs[j]) == Ok(s.jobs[j].delivered[0])
    ensures s.jobs[j].log == Script(|VersionAt(s, j).stages|)
  {
    hide Inlined, Script, Scripted;
    JobAt(ops, s, j);
  }

  /** The job's decoded values, still in its record or already with its one collector. */
  predicate Yields(b: Job, values: Values) {
    b.record == Completed(Some(values)) || b.delivered == [values]
  }

  lemma YieldsInline(ops: Ops, s: Sys, j: nat, values: Values)
    requires Lawful(ops, s) && j < |s.jobs| && Yields(s.jobs[j], values)
    ensures s.jobs[j].version < |s.versions| && AllValid(s.jobs[j].queries) && s.jobs[j].record.Completed?
    ensures Inlined(ops, VersionAt(s, j), s.jobs[j]) == Ok(values)
  {
    hide Inlined, Script, Scripted;
    JobAt(ops, s, j);
  }

  /**
   * Whatever a job completes with or delivers is correct for the planner state its captured version was compiled
   * from: below 2^32 samples it is the graph's own evaluation.
   */
  lemma AsyncAnswers(ops: Ops, s: Sys, j: nat, values: Values)
    requires Lawful(ops, s) && VersionSafety.Versioned(s) && j < |s.jobs| && Yields(s.jobs[j], values)
    ensures s.jobs[j].version < |s.versions| && AllValid(s.jobs[j].queries)
    ensures Correct(ops, s.versions[s.jobs[j].version].source, s.jobs[j].queries, s.jobs[j].start, Ok(values))
  {
    hide Lawful, Executed, Frozen, Correct, VersionSafety.Versioned, Yields;
    YieldsInline(ops, s, j, values);
    SourceOf(s, s.jobs[j].version);
    var d, b := s.versions[s.jobs[j].version], s.jobs[j];
    var id, nodes, sorted :| Frozen(Version(id, d.version.plan, d.version.stages), d.source, nodes, sorted);
    FrozenAnswers(ops, Version(id, d.version.plan, d.version.stages), d.source, nodes, sorted, b.queries, b.start);
  }

  /**
   * Inline execution of the captured version on the same queries and any packet returns the same values, or
   * fails exactly when the third buffer decides and only the job's packet had it.
   */
  lemma AsyncMatchesInline(ops: Ops, s: Sys, j: nat, values: Values, view: View)
    requires Lawful(ops, s) && VersionSafety.Versioned(s) && j < |s.jobs| && Yields(s.jobs[j], values)
    ensures s.jobs[j].version < |s.versions| && AllValid(s.jobs[j].queries)
    ensures var r := Returned(ops, VersionAt(s, j), s.jobs[j].queries, view);
      && (r.Ok? ==> r == Ok(values))
      && (r.Err? <==>
           HasThird(s.jobs[j].start) && !HasThird(view)
           && ThirdDecides(ops, s.versions[s.jobs[j].version].source, s.jobs[j].queries))
  {
    hide Lawful, Executed, Frozen, VersionSafety.Versioned, Yields, ThirdDecides, HasThird, Answered, Accepted;
    hide CompileOf;
    YieldsInline(ops, s, j, values);
    SourceOf(s, s.jobs[j].version);
    var d, b := s.versions[s.jobs[j].version], s.jobs[j];
    var id, nodes, sorted :| Frozen(Version(id, d.version.plan, d.version.stages), d.source, nodes, sorted);
    var v := Version(id, d.version.plan, d.version.stages);
    FrozenCompile(v, d.source, nodes, sorted);
    FrozenReturns(ops, v, d.source, nodes, sorted, b.queries, view);
    FrozenReturns(ops, v, d.source, nodes, sorted, b.queries, b.start);
    SameAnswers(ops, d.source, nodes, sorted, nodes, sorted, b.queries, b.start, view);
    if ThirdDecides(ops, d.source, b.queries) {
      ThirdNeeded(ops, d.source, nodes, sorted, b.queries, b.start);
    }
  }

  lemma FrozenCompile(v: Version, source: State, nodes: seq<NodeSpec>, sorted: seq<nat>)
    requires Frozen(v, source, nodes, sorted)
    ensures CompileOf(source, nodes, sorted) && Accepted(source)
  {
    hide CompileOf, Accepted;
  }

  /** Where the third buffer decides, a run that succeeds had it. */
  lemma ThirdNeeded(ops: Ops, s: State, nodes: seq<NodeSpec>, sorted: seq<nat>, queries: seq<ChunkQuery>, view: View)
    requires CompileOf(s, nodes, sorted) && Accepted(s) && AllValid(queries) && ThirdDecides(ops, s, queries)
    ensures Compile.Storable(nodes) && Compile.Ordered(nodes, sorted) && Compile.Compiles(s.finalField, nodes, sorted)
    ensures Answered(ops, s, nodes, sorted, queries, view).Ok? ==> HasThird(view)
  {
    hide Answered, Accepted, CompileOf, AllRun, HasThird, Compile.Compiles;
    OutcomeExact(ops, s, nodes, sorted, queries, view);
    CompileStorable(s, nodes, sorted);
  }

  /**
   * What becomes of an undisturbed job once no call works for it: completed with the inline result where there is
   * one, failed with the inline error otherwise, for as long as nobody has collected the error.
   */
  lemma UndisturbedEnds(ops: Ops, s: Sys, j: nat)
    requires Lawful(ops, s) && j < |s.jobs| && Quiet(s.jobs[j]) && s.jobs[j].listed
      && forall i: nat :: !Attends(s, i, j)
    ensures s.jobs[j].version < |s.versions| && AllValid(s.jobs[j].queries)
    ensures var b, r := s.jobs[j], Inlined(ops, VersionAt(s, j), s.jobs[j]);
      && (r.Ok? ==> b.record.Completed? && (b.record.values.Some? ==> b.record.values == Some(r.value)))
      && (r.Err? ==> b.record.Failed? && (b.record.error.Some? ==> b.record.error == Some(r.error)))
  {
    hide CallOk, Inlined, Script, Scripted, SingleCall, CallsOk;
    JobAt(ops, s, j);
    assert !NeedsCall(s.jobs[j]);
    FinishedOutcome(ops, VersionAt(s, j), s.jobs[j]);
  }

  lemma FinishedOutcome(ops: Ops, v: Version, b: Job)
    requires AllValid(b.queries) && JobOk(ops, v, b) && Quiet(b) && b.record.Terminal()
    ensures var r := Inlined(ops, v, b);
      && (r.Ok? ==> b.record.Completed? && (b.record.values.Some? ==> b.record.values == Some(r.value)))
      && (r.Err? ==> b.record.Failed? && (b.record.error.Some? ==> b.record.error == Some(r.error)))
  {
    hide Inlined, Script, Scripted;
  }

  /**
   * A job's terminal record is written at most twice, and twice exactly when the hand-off of one of its stages was
   * refused and no call works for it any more.
   */
  lemma RecordWrites(ops: Ops, s: Sys, j: nat)
    requires Lawful(ops, s) && j < |s.jobs|
    ensures s.jobs[j].writes <= 2 && (s.jobs[j].writes > 0 <==> s.jobs[j].record.Terminal())
    ensures s.jobs[j].writes == 2 <==> s.jobs[j].refused && forall i: nat :: !Attends(s, i, j)
  {
    hide Inlined, Script, Scripted, Stands, SingleCall;
    JobAt(ops, s, j);
    if i: nat :| Attends(s, i, j) {
      AtCall(ops, s, i);
      WorkingWrites(ops, VersionOf(s, i), JobOf(s, i), s.calls[i].phase);
    }
  }

  lemma WorkingWrites(ops: Ops, v: Version, b: Job, phase: Phase)
    requires AllValid(b.queries) && CallOk(ops, v, b, phase) && !phase.Returning?
    ensures b.writes <= 1
  {
    hide Inlined, Script, Stands;
  }

  lemma SourceOf(s: Sys, v: nat)
    requires VersionSafety.Versioned(s) && v < |s.versions|
    ensures CompilesTo(s.versions[v].source, s.versions[v].version.plan, s.versions[v].version.stages)
  {
    hide VersionSafety.OneOwner, VersionSafety.Numbering, VersionSafety.ReferencedReady, CompilesTo;
  }

  // ---------------------------------------------------------------- how a job may change

  /**
   * A job keeps its version and queries; a terminal record keeps its kind; cancellation and doom stay; the
   * history, the deliveries and the records written only grow; and the packet it started from is fixed once it
   * is encoded.
   */
  ghost predicate Evolves(b: Job, b': Job) {
    && b'.version == b.version && b'.queries == b.queries
    && (b.record.Terminal() ==> b'.record.SameKind(b.record))
    && (b.cancel ==> b'.cancel) && (b.doomed ==> b'.doomed)
    && b.delivered <= b'.delivered && b.log <= b'.log && b.reported <= b'.reported
    && (b.giver.Some? ==> b'.giver == b.giver) && (b.record == Completed(None) ==> b'.record == b.record)
    && b.writes <= b'.writes && (b.refused ==> b'.refused) && (b.disturbed ==> b'.disturbed)
    && (b.log != [] ==> b'.start == b.start)
  }

  ghost predicate AllEvolve(s: Sys, s': Sys) {
    |s.jobs| <= |s'.jobs| && forall j :: 0 <= j < |s.jobs| ==> Evolves(s.jobs[j], s'.jobs[j])
  }

  lemma MovedEvolves(s: Sys, i: nat, phase: Phase, job: Job)
    requires InCall(s, i) && Evolves(JobOf(s, i), job)
    ensures AllEvolve(s, With(Move(s, i, phase), i, job))
  {}

  lemma SamePhaseEvolves(s: Sys, s': Sys)
    requires s'.jobs == s.jobs
    ensures AllEvolve(s, s')
  {}

  lemma LoggedEvolves(s: Sys, i: nat, phase: Phase, task: Task, fault: bool, packet: Option<View>, start: View)
    requires InCall(s, i) && !JobOf(s, i).record.Terminal() && (JobOf(s, i).log != [] ==> start == JobOf(s, i).start)
    ensures var b := JobOf(s, i);
      var job := b.(log := b.log + [task], disturbed := b.disturbed || fault, packet := packet, start := start);
      AllEvolve(s, With(Move(s, i, phase), i, job))
  {
    var b := JobOf(s, i);
    assert (b.log + [task])[..|b.log|] == b.log;
    MovedEvolves(s, i, phase,
                 b.(log := b.log + [task], disturbed := b.disturbed || fault, packet := packet, start := start));
  }

  lemma EncodeEvolves(s: Sys, i: nat, fault: Option<BraidError>, view: View)
    requires InCall(s, i) && !JobOf(s, i).record.Terminal() && JobOf(s, i).log == []
    ensures AllEvolve(s, EncodeStep(s, i, fault, view))
  {
    hide AllEvolve, Move, With, Encoded, Loaded, Cleared;
    var b, v := JobOf(s, i), VersionOf(s, i);
    match Faulty(fault, Encoded(v.plan.meta.dimension, b.queries, Loaded(Cleared(view), v.plan.statics)))
    case Err(e) => LoggedEvolves(s, i, Unwinding(e), EncodeTask, fault.Some?, b.packet, view);
    case Ok(packet) =>
      LoggedEvolves(s, i, Unwinding(Message), EncodeTask, fault.Some?, b.packet, view);
      LoggedEvolves(s, i, Handing(EncodeTask), EncodeTask, fault.Some?, Some(packet), view);
  }

  lemma StageEvolves(ops: Ops, s: Sys, i: nat, k: nat, fault: Option<BraidError>, view: View)
    requires InCall(s, i) && !JobOf(s, i).record.Terminal() && JobOf(s, i).packet.Some? && k < |VersionOf(s, i).stages|
    ensures AllEvolve(s, StageStep(ops, s, i, k, fault, view))
  {
    hide AllEvolve, Move, With, RunStage;
    var b, v := JobOf(s, i), VersionOf(s, i);
    match Faulty(fault, RunStage(ops, v.stages[k], b.packet.value))
    case Err(e) => LoggedEvolves(s, i, Unwinding(e), StageTask(k), fault.Some?, Some(view), b.start);
    case Ok(packet) => LoggedEvolves(s, i, Handing(StageTask(k)), StageTask(k), fault.Some?, Some(packet), b.start);
  }

  lemma DecodeEvolves(s: Sys, i: nat, fault: Option<BraidError>)
    requires InCall(s, i) && !JobOf(s, i).record.Terminal() && JobOf(s, i).packet.Some?
    ensures AllEvolve(s, DecodeStep(s, i, fault))
  {
    hide AllEvolve, Move, With, Decoded;
    var b, v := JobOf(s, i), VersionOf(s, i);
    match Faulty(fault, Decoded(v.plan.meta.finalSlot, b.packet.value))
    case Err(e) => LoggedEvolves(s, i, Unwinding(e), DecodeTask, fault.Some?, None, b.start);
    case Ok(values) => LoggedEvolves(s, i, Storing(values), DecodeTask, fault.Some?, None, b.start);
  }

  lemma WorkEvolves(ops: Ops, s: Sys, i: nat, fault: Option<BraidError>, view: View)
    requires Lawful(ops, s) && InCall(s, i) && s.calls[i].phase.Working?
    ensures AllEvolve(s, WorkStep(ops, s, i, fault, view))
  {
    hide Lawful, JobOk, AllEvolve, Script, Reached, EncodeStep, StageStep, DecodeStep;
    AtCall(ops, s, i);
    match s.calls[i].phase.task
    case EncodeTask => EncodeEvolves(s, i, fault, view);
    case StageTask(k) => StageEvolves(ops, s, i, k, fault, view);
    case DecodeTask => DecodeEvolves(s, i, fault);
  }

  lemma TaskStepEvolves(ops: Ops, s: Sys, a: Step)
    requires Lawful(ops, s) && CallEnabled(s, a) && !IsEndStep(a)
    ensures AllEvolve(s, CallStep(ops, s, a))
  {
    hide Lawful, JobOk, Move, With, AllEvolve, Script, Stands, WorkStep, Inlined;
    AtCall(ops, s, a.i);
    var b := JobOf(s, a.i);
    match a
    case List(i) => MovedEvolves(s, i, Submitting, b.(listed := true));
    case Submit(i, ok) =>
      SamePhaseEvolves(s, Move(s, i, Queued(EncodeTask)));
      MovedEvolves(s, i, Returning, b.(listed := false, disturbed := true));
    case Start(i) => SamePhaseEvolves(s, CallStep(ops, s, a));
    case Refuse(i) => MovedEvolves(s, i, Dropped(ExecutorShutdown), b.(disturbed := true));
    case CheckCancel(i) => SamePhaseEvolves(s, CallStep(ops, s, a));
    case Mark(i) => MovedEvolves(s, i, Working(EncodeTask), b.(record := Active));
    case Work(i, fault, view) => WorkEvolves(ops, s, i, fault, view);
    case Hand(i, ok) => HandEvolves(s, i, ok);
  }

  lemma HandEvolves(s: Sys, i: nat, ok: bool)
    requires InCall(s, i) && s.calls[i].phase.Handing?
    ensures AllEvolve(s, HandStep(s, i, ok))
  {
    hide Move, With, AllEvolve;
    var b := JobOf(s, i);
    var next := NextTask(s.calls[i].phase.task, |VersionOf(s, i).stages|);
    if ok {
      SamePhaseEvolves(s, HandStep(s, i, ok));
    } else {
      MovedEvolves(s, i, if next.StageTask? then Declined(ExecutorShutdown) else Unwinding(ExecutorShutdown),
                   b.(refused := b.refused || next.StageTask?, disturbed := true));
    }
  }

  /** A record is only ever written over by one of its own kind. */
  lemma EndingRecord(ops: Ops, v: Version, b: Job, phase: Phase)
    requires AllValid(b.queries) && CallOk(ops, v, b, phase) && b.record.Terminal()
    ensures !phase.Rejecting? && !phase.Storing?
    ensures phase.Failing? ==> b.record.Failed? && phase.error != BraidError.Cancelled
  {
    hide Inlined, Script, Stands;
  }

  lemma RejectEvolves(s: Sys, i: nat)
    requires InCall(s, i)
    ensures s.calls[i].phase.Declined? || s.calls[i].phase.Dropped? ==> AllEvolve(s, RejectStep(s, i))
    ensures s.calls[i].phase.Unwinding? ==> AllEvolve(s, CleanStep(s, i))
  {
    hide Move, With, AllEvolve;
    var b := JobOf(s, i);
    if s.calls[i].phase.Declined? || s.calls[i].phase.Dropped? {
      MovedEvolves(s, i, Rejecting(s.calls[i].phase.error, s.calls[i].phase.Declined?), b.(packet := None));
    }
    if s.calls[i].phase.Unwinding? {
      MovedEvolves(s, i, Failing(s.calls[i].phase.error), b.(packet := None));
    }
  }

  lemma RecordEvolves(ops: Ops, s: Sys, i: nat)
    requires Lawful(ops, s) && InCall(s, i)
    ensures s.calls[i].phase.Rejecting? ==> AllEvolve(s, RejectedStep(s, i))
    ensures s.calls[i].phase.Failing? ==> AllEvolve(s, FailStep(s, i))
    ensures s.calls[i].phase.Storing? ==> AllEvolve(s, StoreStep(s, i))
  {
    hide Lawful, JobOk, CallOk, Move, With, AllEvolve;
    AtCall(ops, s, i);
    var b, phase := JobOf(s, i), s.calls[i].phase;
    if b.record.Terminal() {
      EndingRecord(ops, VersionOf(s, i), b, phase);
    }
    match phase
    case Rejecting(e, unwinds) =>
      MovedEvolves(s, i, if unwinds then Unwinding(e) else Returning,
                   b.(record := Failed(Some(e)), writes := b.writes + 1));
    case Failing(e) =>
      MovedEvolves(s, i, Returning,
                   b.(record := if e == BraidError.Cancelled then CancelledRecord else Failed(Some(e)),
                      writes := b.writes + 1));
    case Storing(values) =>
      MovedEvolves(s, i, Returning, b.(record := Completed(Some(values)), writes := b.writes + 1));
    case _ =>
  }

  lemma EndStepEvolves(ops: Ops, s: Sys, a: Step)
    requires Lawful(ops, s) && CallEnabled(s, a) && IsEndStep(a)
    ensures AllEvolve(s, CallStep(ops, s, a))
  {
    hide Lawful, AllEvolve, UpdateAt, Referenced, CompilesTo, RejectStep, RejectedStep, CleanStep, FailStep, StoreStep;
    RejectEvolves(s, a.i);
    RecordEvolves(ops, s, a.i);
  }

  lemma CancelEvolves(s: Sys, j: nat)
    requires j < |s.jobs|
    ensures AllEvolve(s, CancelStep(s, j))
  {
    hide PastDecodeCheck, AllEvolve;
    OneJobEvolves(s, CancelStep(s, j), j);
  }

  lemma TakeEvolves(ops: Ops, s: Sys, c: nat)
    requires Lawful(ops, s)
    requires c < |s.collectors| && s.collectors[c].job < |s.jobs| && s.jobs[s.collectors[c].job].record.Terminal()
    ensures AllEvolve(s, TakeStep(s, c))
  {
    hide Lawful, AllEvolve, Taken, Evolves, Inlined, Script, Scripted;
    var j := s.collectors[c].job;
    JobAt(ops, s, j);
    TakenEvolves(s.jobs[j], c);
    OneJobEvolves(s, TakeStep(s, c), j);
  }

  lemma TakenEvolves(b: Job, c: nat)
    requires b.record.Completed? && b.record.values.Some? ==> b.giver.None?
    ensures Evolves(b, Taken(b, c))
  {
    assert Taken(b, c).record.SameKind(b.record);
    assert b.delivered <= Taken(b, c).delivered;
  }

  lemma UnlistEvolves(s: Sys, c: nat)
    requires c < |s.collectors| && s.collectors[c].job < |s.jobs|
    ensures AllEvolve(s, UnlistStep(s, c))
  {
    hide AllEvolve;
    OneJobEvolves(s, UnlistStep(s, c), s.collectors[c].job);
  }

  lemma DispatchEvolves(s: Sys, queries: seq<ChunkQuery>)
    ensures AllEvolve(s, DispatchStep(s, queries))
  {
    hide AllEvolve;
    MoreJobsEvolve(s, DispatchStep(s, queries));
  }

  lemma TableStepEvolves(ops: Ops, s: Sys, a: Step)
    requires Lawful(ops, s) && TableEnabled(s, a)
    ensures AllEvolve(s, TableStep(s, a))
  {
    hide Lawful, AllEvolve, CancelStep, TakeStep, UnlistStep, DispatchStep;
    match a
    case Dispatch(queries) => DispatchEvolves(s, queries);
    case Return(i) => SamePhaseEvolves(s, TableStep(s, a));
    case Collect(j) => SamePhaseEvolves(s, TableStep(s, a));
    case Cancel(j) => CancelEvolves(s, j);
    case Take(c) => TakeEvolves(ops, s, c);
    case Unlist(c) => UnlistEvolves(s, c);
  }

  lemma MoreJobsEvolve(s: Sys, s': Sys)
    requires |s.jobs| <= |s'.jobs| && s'.jobs[..|s.jobs|] == s.jobs
    ensures AllEvolve(s, s')
  {
    forall j | 0 <= j < |s.jobs| ensures Evolves(s.jobs[j], s'.jobs[j]) {
      assert s'.jobs[..|s.jobs|][j] == s'.jobs[j];
    }
  }

  lemma OneJobEvolves(s: Sys, s': Sys, j: nat)
    requires j < |s.jobs| && |s'.jobs| == |s.jobs| && s'.jobs == s.jobs[j := s'.jobs[j]]
      && Evolves(s.jobs[j], s'.jobs[j])
    ensures AllEvolve(s, s')
  {}

  lemma OtherEvolves(ops: Ops, s: Sys, a: Step)
    requires Enabled(s, a) && !IsCallStep(a) && !IsTableStep(a)
    ensures AllEvolve(s, Do(ops, s, a))
  {
    hide Referenced, CompilesTo, CallStep, TableStep;
  }

  /** Whatever happens next, every job evolves. */
  lemma StepEvolves(ops: Ops, s: Sys, a: Step)
    requires Lawful(ops, s) && Enabled(s, a)
    ensures AllEvolve(s, Do(ops, s, a))
  {
    hide Lawful, AllEvolve, CallEnabled, TableEnabled, VersionEnabled, PlannerEnabled;
    hide CallStep, TableStep, VersionStep, PlannerStep;
    if IsEndStep(a) {
      EndStepEvolves(ops, s, a);
    } else if IsCallStep(a) {
      TaskStepEvolves(ops, s, a);
    } else if IsTableStep(a) {
      TableStepEvolves(ops, s, a);
    } else {
      OtherEvolves(ops, s, a);
    }
  }

  /** Over any run, a terminal kind is final and nothing recorded is taken back. */
  lemma {:induction false} RunEvolves(ops: Ops, s: Sys, steps: seq<Step>)
    requires VersionSafety.Versioned(s) && Lawful(ops, s) && Run(ops, s, steps).Some?
    ensures AllEvolve(s, Run(ops, s, steps).value)
  {
    hide VersionSafety.Versioned, Lawful, Do, Enabled;
    if steps != [] {
      var init, a := steps[..|steps| - 1], steps[|steps| - 1];
      RunSafe(ops, s, init);
      RunEvolves(ops, s, init);
      StepEvolves(ops, Run(ops, s, init).value, a);
      EvolveTwice(s, Run(ops, s, init).value, Run(ops, s, steps).value);
    }
  }

  lemma EvolveTwice(s1: Sys, s2: Sys, s3: Sys)
    requires AllEvolve(s1, s2) && AllEvolve(s2, s3)
    ensures AllEvolve(s1, s3)
  {
    forall j | 0 <= j < |s1.jobs| ensures Evolves(s1.jobs[j], s3.jobs[j]) {
      assert Evolves(s1.jobs[j], s2.jobs[j]) && Evolves(s2.jobs[j], s3.jobs[j]);
    }
  }

  lemma DoomedStays(ops: Ops, s: Sys, j: nat, steps: seq<Step>)
    requires VersionSafety.Versioned(s) && Lawful(ops, s) && j < |s.jobs| && s.jobs[j].doomed
    requires Run(ops, s, steps).Some?
    ensures j < |Run(ops, s, steps).value.jobs| && !Run(ops, s, steps).value.jobs[j].record.Completed?
  {
    hide VersionSafety.Versioned, Lawful, Run, JobOk;
    RunSafe(ops, s, steps);
    RunEvolves(ops, s, steps);
    var end := Run(ops, s, steps).value;
    assert Evolves(s.jobs[j], end.jobs[j]);
    JobAt(ops, end, j);
    DoomedOpen(ops, VersionAt(end, j), end.jobs[j]);
  }

  /** A job cancelled before its decode task passed the cancel check never completes, whatever runs after. */
  lemma CancelledNeverCompletes(ops: Ops, s: Sys, j: nat, steps: seq<Step>)
    requires VersionSafety.Versioned(s) && Lawful(ops, s) && j < |s.jobs| && s.jobs[j].listed && !PastDecodeCheck(s, j)
    requires Run(ops, CancelStep(s, j), steps).Some?
    ensures j < |Run(ops, CancelStep(s, j), steps).value.jobs|
    ensures !Run(ops, CancelStep(s, j), steps).value.jobs[j].record.Completed?
  {
    hide VersionSafety.Versioned, Lawful, PastDecodeCheck, Run, Do, Enabled;
    CancelIsStep(ops, s, j);
    VersionSafety.StepVersioned(ops, s, Cancel(j));
    StepLawful(ops, s, Cancel(j));
    DoomedStays(ops, CancelStep(s, j), j, steps);
  }

  lemma CancelIsStep(ops: Ops, s: Sys, j: nat)
    requires j < |s.jobs| && s.jobs[j].listed
    ensures Enabled(s, Cancel(j)) && Do(ops, s, Cancel(j)) == CancelStep(s, j)
  {
    hide PastDecodeCheck;
  }

  lemma DoomedOpen(ops: Ops, v: Version, b: Job)
    requires AllValid(b.queries) && JobOk(ops, v, b) && b.doomed
    ensures !b.record.Completed?
  {}

  /** Decoded values reach at most one collector, over any run. */
  lemma DeliveredOnce(ops: Ops, s: Sys, j: nat, steps: seq<Step>)
    requires VersionSafety.Versioned(s) && Lawful(ops, s) && Run(ops, s, steps).Some? && j < |s.jobs|
    ensures var end := Run(ops, s, steps).value;
      && j < |end.jobs| && |end.jobs[j].delivered| <= 1
      && (s.jobs[j].delivered != [] ==> end.jobs[j].delivered == s.jobs[j].delivered)
  {
    hide VersionSafety.Versioned, Lawful, Run;
    RunSafe(ops, s, steps);
    RunEvolves(ops, s, steps);
    var end := Run(ops, s, steps).value;
    assert Evolves(s.jobs[j], end.jobs[j]);
    JobAt(ops, end, j);
  }
}
