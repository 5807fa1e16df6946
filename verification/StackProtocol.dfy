/**
 * Jobs and versions of one stack under every interleaving: dispatch, the encode, stage and decode tasks,
 * cancellation and collection, updates that swap versions, and the reuse of prepared backend objects. Each
 * step is one section under a lock, one flag access, or one call into the planner or backend, together with
 * the job's packet slot, which only that job's own calls touch.
 */
module StackProtocol {
  import opened Common
  import opened Model
  import opened Semantics
  import opened Packet
  import opened Grid
  import opened Runtime
  import opened Backend
  import opened Inline
  import opened StackCore

  type Values = seq<seq<f32>>

  datatype Task = EncodeTask | StageTask(k: nat) | DecodeTask

  /** Where one call on behalf of a job stands. */
  datatype Phase =
    | Capturing                     // dispatch, with the current version, before the job is listed
    | Submitting                    // before the executor takes the encode task
    | Queued(task: Task)            // with the executor, or waiting for a lane
    | Started(task: Task)           // before the cancel check
    | Marking                       // encode: before mark_running
    | Working(task: Task)           // before the planner or backend call
    | Handing(task: Task)           // done; the next task is about to be scheduled
    | Declined(error: BraidError)   // that was refused: the stage's reject callback comes first
    | Dropped(error: BraidError)    // a queued stage task was rejected: its callback is about to run
    | Rejecting(error: BraidError, unwinds: bool) // the callback has cleaned up the packet; the record is next
    | Unwinding(error: BraidError)  // the task returned an error: packet cleanup is next
    | Failing(error: BraidError)    // then the record is written
    | Storing(values: Values)       // decoded; the record is about to be completed
    | Returning                     // nothing left to do for the job

  datatype Call = Call(job: nat, phase: Phase)

  datatype Record =
    | Pending
    | Active
    | Completed(values: Option<Values>)
    | Failed(error: Option<BraidError>)
    | CancelledRecord
  {
    predicate Terminal() {
      !Pending? && !Active?
    }

    predicate SameKind(other: Record) {
      Completed? == other.Completed? && Failed? == other.Failed? && CancelledRecord? == other.CancelledRecord?
    }
  }

  /** The record an inline result calls for. */
  function RecordOf(r: Result<Values>): Record {
    match r
    case Ok(values) => Completed(Some(values))
    case Err(e) => Failed(Some(e))
  }

  /** From start on, the fields only record what happened. */
  datatype Job = Job(
    version: nat,               // index of the version captured at dispatch
    queries: seq<ChunkQuery>,
    cancel: bool,
    record: Record,
    listed: bool,               // in the job table
    packet: Option<View>,
    start: View,                // the packet as it was checked out
    log: seq<Task>,             // planner and backend calls made, in order
    doomed: bool,               // cancelled before the decode task passed its cancel check
    delivered: seq<Values>,     // values collectors received
    giver: Option<nat>,         // the collector that received them
    reported: seq<BraidError>,  // errors collectors received
    writes: nat,                // terminal records written
    refused: bool,              // scheduling one of its stages was refused
    disturbed: bool)            // some call failed by itself, or some task was refused or rejected

  /** A collect call, by the handle it was called with; it keeps what it received, and ends by unlisting the job. */
  datatype Collector = Collector(job: nat, got: Option<Result<Values>>, done: bool)

  /** A frozen version, its prepared backend object while it has one, and the planner state it was compiled from. */
  datatype Deployment = Deployment(version: Version, backing: Option<nat>, source: GraphState.State)

  datatype UpdatePhase =
    | Compiling
    | Compiled(plan: Compile.Plan, stages: seq<seq<Kernel>>)
    | Preparing(plan: Compile.Plan, stages: seq<seq<Kernel>>, reuse: Option<nat>)
    | Prepared(plan: Compile.Plan, stages: seq<seq<Kernel>>, backing: nat)
    | Numbered(version: Version, backing: nat)
    | Swapped(version: Version)
    | Published

  /** What an update found when it took the planner lock. */
  datatype Update = Update(
    next: GraphState.State, commits: bool, phase: UpdatePhase,
    plannerWas: GraphState.State, versionsWas: seq<Deployment>, currentWas: nat, idWas: nat)

  datatype Sys = Sys(
    jobs: seq<Job>,
    calls: seq<Call>,
    collectors: seq<Collector>,
    versions: seq<Deployment>,
    current: nat,
    currentId: nat,
    nextVersionId: nat,
    readers: seq<nat>,          // versions inline executions hold
    pool: seq<nat>,             // prepared objects free for reuse
    nextObject: nat,
    update: Option<Update>,     // holder of the planner lock
    planner: GraphState.State)

  predicate AllValid(queries: seq<ChunkQuery>) {
    forall q :: 0 <= q < |queries| ==> queries[q].Valid()
  }

  /** The packet of a job that has been encoded and has run k stages of its version. */
  ghost function Reached(ops: Ops, v: Version, b: Job, k: nat): Result<View>
    requires AllValid(b.queries) && k <= |v.stages|
  {
    var encoded :- Encoded(v.plan.meta.dimension, b.queries, Loaded(Cleared(b.start), v.plan.statics));
    RunStages(ops, v.stages[..k], encoded)
  }

  /** What inline execution returns for the job's queries, version and packet. */
  ghost function Inlined(ops: Ops, v: Version, b: Job): Result<Values>
    requires AllValid(b.queries)
  {
    Executed(ops, v.plan, v.stages, b.queries, b.start)
  }

  // ---------------------------------------------------------------- steps of one call

  /** The call at index i, and its job. */
  predicate InCall(s: Sys, i: nat) {
    i < |s.calls| && s.calls[i].job < |s.jobs| && s.jobs[s.calls[i].job].version < |s.versions|
    && AllValid(s.jobs[s.calls[i].job].queries)
  }

  function JobOf(s: Sys, i: nat): Job
    requires InCall(s, i)
  {
    s.jobs[s.calls[i].job]
  }

  function VersionOf(s: Sys, i: nat): Version
    requires InCall(s, i)
  {
    s.versions[s.jobs[s.calls[i].job].version].version
  }

  function Move(s: Sys, i: nat, phase: Phase): (r: Sys)
    requires InCall(s, i)
    ensures r == s.(calls := r.calls) && InCall(r, i)
    ensures |r.calls| == |s.calls| && forall k :: 0 <= k < |s.calls| ==> r.calls[k].job == s.calls[k].job
  {
    s.(calls := s.calls[i := Call(s.calls[i].job, phase)])
  }

  function With(s: Sys, i: nat, job: Job): (r: Sys)
    requires InCall(s, i)
    ensures r == s.(jobs := r.jobs) && |r.jobs| == |s.jobs|
    ensures forall j :: 0 <= j < |s.jobs| ==> r.jobs[j] == if j == s.calls[i].job then job else s.jobs[j]
  {
    s.(jobs := s.jobs[s.calls[i].job := job])
  }

  /** dispatch captures the current version, under that lock alone. */
  function DispatchStep(s: Sys, queries: seq<ChunkQuery>): Sys {
    var job := Job(s.current, queries, false, Pending, false, None, View(0, map[]), [], false, [], None, [],
                   0, false, false);
    s.(jobs := s.jobs + [job], calls := s.calls + [Call(|s.jobs|, Capturing)])
  }

  /** Then the job enters the table. */
  function ListStep(s: Sys, i: nat): Sys
    requires InCall(s, i)
  {
    With(Move(s, i, Submitting), i, JobOf(s, i).(listed := true))
  }

  /** The executor takes the encode task, or dispatch removes the job again and reports the error. */
  function SubmitStep(s: Sys, i: nat, ok: bool): Sys
    requires InCall(s, i)
  {
    if ok then Move(s, i, Queued(EncodeTask))
    else With(Move(s, i, Returning), i, JobOf(s, i).(listed := false, disturbed := true))
  }

  function CheckStep(s: Sys, i: nat): Sys
    requires InCall(s, i) && s.calls[i].phase.Started?
  {
    var task := s.calls[i].phase.task;
    if JobOf(s, i).cancel then Move(s, i, Unwinding(Cancelled))
    else Move(s, i, if task.EncodeTask? then Marking else Working(task))
  }

  function MarkStep(s: Sys, i: nat): Sys
    requires InCall(s, i)
  {
    With(Move(s, i, Working(EncodeTask)), i, JobOf(s, i).(record := Active))
  }

  /** The backend rejects a stage task it had accepted. */
  function RefuseStep(s: Sys, i: nat): Sys
    requires InCall(s, i)
  {
    With(Move(s, i, Dropped(ExecutorShutdown)), i, JobOf(s, i).(disturbed := true))
  }

  /** A planner or backend call that may also fail for reasons of its own. */
  function Faulty<T>(fault: Option<BraidError>, r: Result<T>): Result<T> {
    if fault.Some? then Err(fault.value) else r
  }

  /** encode_packet on a checked-out packet, then store_packet. */
  ghost function EncodeStep(s: Sys, i: nat, fault: Option<BraidError>, view: View): Sys
    requires InCall(s, i)
  {
    var b, v := JobOf(s, i), VersionOf(s, i);
    var logged := b.(log := b.log + [EncodeTask], start := view, disturbed := b.disturbed || fault.Some?);
    match Faulty(fault, Encoded(v.plan.meta.dimension, b.queries, Loaded(Cleared(view), v.plan.statics)))
    case Err(e) => With(Move(s, i, Unwinding(e)), i, logged)
    case Ok(packet) =>
      if b.packet.Some? then With(Move(s, i, Unwinding(Message)), i, logged)
      else With(Move(s, i, Handing(EncodeTask)), i, logged.(packet := Some(packet)))
  }

  /** run_stage_once; a failing stage may leave anything in the packet. */
  ghost function StageStep(ops: Ops, s: Sys, i: nat, k: nat, fault: Option<BraidError>, view: View): Sys
    requires InCall(s, i)
  {
    var b, v := JobOf(s, i), VersionOf(s, i);
    var logged := b.(log := b.log + [StageTask(k)], disturbed := b.disturbed || fault.Some?);
    if b.packet.None? || k >= |v.stages| then With(Move(s, i, Unwinding(Message)), i, logged)
    else
      match Faulty(fault, RunStage(ops, v.stages[k], b.packet.value))
      case Err(e) => With(Move(s, i, Unwinding(e)), i, logged.(packet := Some(view)))
      case Ok(packet) => With(Move(s, i, Handing(StageTask(k))), i, logged.(packet := Some(packet)))
  }

  /** take_packet and decode_packet. */
  ghost function DecodeStep(s: Sys, i: nat, fault: Option<BraidError>): Sys
    requires InCall(s, i)
  {
    var b, v := JobOf(s, i), VersionOf(s, i);
    var logged := b.(log := b.log + [DecodeTask], disturbed := b.disturbed || fault.Some?);
    if b.packet.None? then With(Move(s, i, Unwinding(Message)), i, logged)
    else
      match Faulty(fault, Decoded(v.plan.meta.finalSlot, b.packet.value))
      case Err(e) => With(Move(s, i, Unwinding(e)), i, logged.(packet := None))
      case Ok(values) => With(Move(s, i, Storing(values)), i, logged.(packet := None))
  }

  /** One planner or backend call; Cancelled comes only under the cancel flag (see Enabled). */
  ghost function WorkStep(ops: Ops, s: Sys, i: nat, fault: Option<BraidError>, view: View): Sys
    requires InCall(s, i) && s.calls[i].phase.Working?
  {
    match s.calls[i].phase.task
    case EncodeTask => EncodeStep(s, i, fault, view)
    case StageTask(k) => StageStep(ops, s, i, k, fault, view)
    case DecodeTask => DecodeStep(s, i, fault)
  }

  function NextTask(task: Task, stageCount: nat): Task {
    match task
    case EncodeTask => if stageCount == 0 then DecodeTask else StageTask(0)
    case StageTask(k) => if k + 1 < stageCount then StageTask(k + 1) else DecodeTask
    case DecodeTask => DecodeTask
  }

  /**
   * Scheduling the next task: a new call takes over, or the error comes back, for a stage through its reject
   * callback.
   */
  function HandStep(s: Sys, i: nat, ok: bool): Sys
    requires InCall(s, i) && s.calls[i].phase.Handing?
  {
    var next := NextTask(s.calls[i].phase.task, |VersionOf(s, i).stages|);
    if ok then
      var s' := Move(s, i, Returning);
      s'.(calls := s'.calls + [Call(s.calls[i].job, Queued(next))])
    else
      With(Move(s, i, if next.StageTask? then Declined(ExecutorShutdown) else Unwinding(ExecutorShutdown)), i,
           JobOf(s, i).(refused := JobOf(s, i).refused || next.StageTask?, disturbed := true))
  }

  /** reject_scheduled_task cleans up the packet. */
  function RejectStep(s: Sys, i: nat): Sys
    requires InCall(s, i) && (s.calls[i].phase.Declined? || s.calls[i].phase.Dropped?)
  {
    With(Move(s, i, Rejecting(s.calls[i].phase.error, s.calls[i].phase.Declined?)), i, JobOf(s, i).(packet := None))
  }

  /** Then it fails the record; a declined hand-off goes on to return its error. */
  function RejectedStep(s: Sys, i: nat): Sys
    requires InCall(s, i) && s.calls[i].phase.Rejecting?
  {
    var e := s.calls[i].phase.error;
    With(Move(s, i, if s.calls[i].phase.unwinds then Unwinding(e) else Returning), i,
         JobOf(s, i).(record := Failed(Some(e)), writes := JobOf(s, i).writes + 1))
  }

  function CleanStep(s: Sys, i: nat): Sys
    requires InCall(s, i) && s.calls[i].phase.Unwinding?
  {
    With(Move(s, i, Failing(s.calls[i].phase.error)), i, JobOf(s, i).(packet := None))
  }

  function FailStep(s: Sys, i: nat): Sys
    requires InCall(s, i) && s.calls[i].phase.Failing?
  {
    var e := s.calls[i].phase.error;
    With(Move(s, i, Returning), i,
         JobOf(s, i).(record := if e == Cancelled then CancelledRecord else Failed(Some(e)),
                      writes := JobOf(s, i).writes + 1))
  }

  function StoreStep(s: Sys, i: nat): Sys
    requires InCall(s, i) && s.calls[i].phase.Storing?
  {
    With(Move(s, i, Returning), i,
         JobOf(s, i).(record := Completed(Some(s.calls[i].phase.values)), writes := JobOf(s, i).writes + 1))
  }

  function ReturnStep(s: Sys, i: nat): Sys
    requires i < |s.calls|
  {
    s.(calls := s.calls[..i] + s.calls[i + 1..])
  }

  // ---------------------------------------------------------------- cancel and collect

  /** Some call of the job has passed the decode task's cancel check, or the job is already completed. */
  ghost predicate PastDecodeCheck(s: Sys, j: nat)
    requires j < |s.jobs|
  {
    s.jobs[j].record.Completed? ||
    exists i :: 0 <= i < |s.calls| && s.calls[i].job == j
      && (s.calls[i].phase == Working(DecodeTask) || s.calls[i].phase.Storing?)
  }

  ghost function CancelStep(s: Sys, j: nat): Sys
    requires j < |s.jobs|
  {
    s.(jobs := s.jobs[j := s.jobs[j].(cancel := true, doomed := s.jobs[j].doomed || !PastDecodeCheck(s, j))])
  }

  /** What a collector that sees the terminal record receives; a later one finds an empty vector or a bare error. */
  function Outcome(b: Job): Result<Values>
    requires b.record.Terminal()
  {
    match b.record
    case Completed(Some(values)) => Ok(values)
    case Completed(None) => Ok([])
    case Failed(Some(e)) => Err(e)
    case Failed(None) => Err(Message)
    case CancelledRecord => Err(Cancelled)
  }

  /** The job after collector c took its outcome. */
  function Taken(b: Job, c: nat): Job {
    match b.record
    case Completed(Some(values)) => b.(record := Completed(None), delivered := b.delivered + [values], giver := Some(c))
    case Failed(Some(e)) => b.(record := Failed(None), reported := b.reported + [e])
    case _ => b
  }

  /** A collector sees a terminal record. */
  function TakeStep(s: Sys, c: nat): Sys
    requires c < |s.collectors| && s.collectors[c].job < |s.jobs| && s.jobs[s.collectors[c].job].record.Terminal()
  {
    var j := s.collectors[c].job;
    s.(jobs := s.jobs[j := Taken(s.jobs[j], c)],
       collectors := s.collectors[c := Collector(j, Some(Outcome(s.jobs[j])), false)])
  }

  function UnlistStep(s: Sys, c: nat): Sys
    requires c < |s.collectors| && s.collectors[c].job < |s.jobs|
  {
    var j := s.collectors[c].job;
    s.(jobs := s.jobs[j := s.jobs[j].(listed := false)],
       collectors := s.collectors[c := s.collectors[c].(done := true)])
  }

  // ---------------------------------------------------------------- versions and prepared objects

  /** A version some call, inline execution or the stack itself still refers to. */
  ghost predicate Referenced(s: Sys, v: nat) {
    || v == s.current
    || v in s.readers
    || exists i :: 0 <= i < |s.calls| && CallRefers(s, i, v)
  }

  ghost predicate CallRefers(s: Sys, i: nat, v: nat) {
    i < |s.calls| && s.calls[i].job < |s.jobs| && s.jobs[s.calls[i].job].version == v
  }

  /** Dropping an unreferenced version returns its prepared object to the pool. */
  function DropStep(s: Sys, v: nat): Sys
    requires v < |s.versions| && s.versions[v].backing.Some?
  {
    s.(versions := s.versions[v := s.versions[v].(backing := None)], pool := s.pool + [s.versions[v].backing.value])
  }

  function BeginStep(s: Sys, next: GraphState.State, commits: bool): Sys {
    s.(update := Some(Update(next, commits, Compiling, s.planner, s.versions, s.current, s.currentId)))
  }

  function PhaseTo(s: Sys, phase: UpdatePhase): (r: Sys)
    requires s.update.Some?
    ensures r == s.(update := r.update)
  {
    s.(update := Some(s.update.value.(phase := phase)))
  }

  /** A failed compile, validation, permit or prepare releases the planner lock; a popped object is dropped with it. */
  function AbortStep(s: Sys): Sys {
    s.(update := None)
  }

  function ReuseStep(s: Sys, plan: Compile.Plan, stages: seq<seq<Kernel>>): Sys
    requires s.update.Some?
  {
    if s.pool == [] then PhaseTo(s, Preparing(plan, stages, None))
    else PhaseTo(s.(pool := s.pool[..|s.pool| - 1]), Preparing(plan, stages, Some(s.pool[|s.pool| - 1])))
  }

  /** prepare may build on the reused object or make a new one. */
  function PreparedStep(s: Sys, plan: Compile.Plan, stages: seq<seq<Kernel>>, reuse: Option<nat>, keeps: bool): Sys
    requires s.update.Some?
  {
    if keeps && reuse.Some? then PhaseTo(s, Prepared(plan, stages, reuse.value))
    else PhaseTo(s.(nextObject := s.nextObject + 1), Prepared(plan, stages, s.nextObject))
  }

  function NumberStep(s: Sys, plan: Compile.Plan, stages: seq<seq<Kernel>>, backing: nat): Sys
    requires s.update.Some?
  {
    PhaseTo(s.(nextVersionId := s.nextVersionId + 1), Numbered(Version(s.nextVersionId, plan, stages), backing))
  }

  function SwapStep(s: Sys, version: Version, backing: nat): Sys
    requires s.update.Some?
  {
    PhaseTo(s.(versions := s.versions + [Deployment(version, Some(backing), s.update.value.next)],
               current := |s.versions|), Swapped(version))
  }

  function PublishStep(s: Sys, version: Version): Sys
    requires s.update.Some?
  {
    PhaseTo(s.(currentId := version.id), Published)
  }

  /** update stores the new planner state only now; recompile leaves it alone. */
  function CommitStep(s: Sys): Sys
    requires s.update.Some?
  {
    s.(planner := if s.update.value.commits then s.update.value.next else s.planner, update := None)
  }

  // ---------------------------------------------------------------- the transition system

  datatype Step =
    | Dispatch(queries: seq<ChunkQuery>)
    | List(i: nat)
    | Submit(i: nat, ok: bool)
    | Start(i: nat)
    | Refuse(i: nat)
    | CheckCancel(i: nat)
    | Mark(i: nat)
    | Work(i: nat, fault: Option<BraidError>, view: View)
    | Hand(i: nat, ok: bool)
    | Reject(i: nat)
    | Rejected(i: nat)
    | Clean(i: nat)
    | Fail(i: nat)
    | Store(i: nat)
    | Return(i: nat)
    | Cancel(j: nat)
    | Collect(j: nat)
    | Take(c: nat)
    | Unlist(c: nat)
    | Read
    | ReadDone(r: nat)
    | Drop(v: nat)
    | Apply(next: GraphState.State)
    | Begin(next: GraphState.State, commits: bool)
    | CompileDone(plan: Compile.Plan, stages: seq<seq<Kernel>>)
    | Abort
    | Reuse
    | PrepareDone(keeps: bool)
    | Number
    | Swap
    | Publish
    | Commit

  predicate IsCallStep(a: Step) {
    a.List? || a.Submit? || a.Start? || a.Refuse? || a.CheckCancel? || a.Mark? || a.Work? || a.Hand? || IsEndStep(a)
  }

  predicate IsEndStep(a: Step) {
    a.Reject? || a.Rejected? || a.Clean? || a.Fail? || a.Store?
  }

  predicate IsTableStep(a: Step) {
    a.Dispatch? || a.Return? || a.Cancel? || a.Collect? || a.Take? || a.Unlist?
  }

  predicate IsVersionStep(a: Step) {
    a.Read? || a.ReadDone? || a.Drop?
  }

  /** The phase in which a call takes a step. */
  predicate PhaseAllows(phase: Phase, a: Step) {
    match a
    case List(_) => phase.Capturing?
    case Submit(_, _) => phase.Submitting?
    case Start(_) => phase.Queued?
    case Refuse(_) => phase.Queued? && phase.task.StageTask?
    case CheckCancel(_) => phase.Started?
    case Mark(_) => phase.Marking?
    case Work(_, _, _) => phase.Working?
    case Hand(_, _) => phase.Handing?
    case Reject(_) => phase.Declined? || phase.Dropped?
    case Rejected(_) => phase.Rejecting?
    case Clean(_) => phase.Unwinding?
    case Fail(_) => phase.Failing?
    case Store(_) => phase.Storing?
    case _ => false
  }

  predicate CallEnabled(s: Sys, a: Step) {
    && IsCallStep(a) && InCall(s, a.i) && PhaseAllows(s.calls[a.i].phase, a)
    && (a.Work? && a.fault == Some(Cancelled) ==> JobOf(s, a.i).cancel)
  }

  predicate TableEnabled(s: Sys, a: Step) {
    match a
    case Dispatch(queries) => AllValid(queries)
    case Return(i) => InCall(s, i) && s.calls[i].phase.Returning?
    case Cancel(j) => j < |s.jobs| && s.jobs[j].listed
    case Collect(j) => j < |s.jobs| && s.jobs[j].listed
    case Take(c) => c < |s.collectors| && s.collectors[c].got.None? && s.collectors[c].job < |s.jobs|
      && s.jobs[s.collectors[c].job].record.Terminal()
    case Unlist(c) => c < |s.collectors| && s.collectors[c].got.Some? && !s.collectors[c].done
      && s.collectors[c].job < |s.jobs|
    case _ => false
  }

  ghost predicate VersionEnabled(s: Sys, a: Step) {
    match a
    case Read => true
    case ReadDone(r) => r < |s.readers|
    case Drop(v) => v < |s.versions| && s.versions[v].backing.Some? && !Referenced(s, v)
    case _ => false
  }

  /** The phase in which an update takes a step. */
  predicate UpdateAt(phase: UpdatePhase, a: Step) {
    match a
    case CompileDone(_, _) => phase.Compiling?
    case Abort => phase.Compiling? || phase.Preparing?
    case Reuse => phase.Compiled?
    case PrepareDone(_) => phase.Preparing?
    case Number => phase.Prepared?
    case Swap => phase.Numbered?
    case Publish => phase.Swapped?
    case Commit => phase.Published?
    case _ => false
  }

  ghost predicate PlannerEnabled(s: Sys, a: Step) {
    match a
    case Apply(_) => s.update.None?
    case Begin(next, commits) => s.update.None? && (!commits ==> next == s.planner)
    case _ =>
      && s.update.Some? && UpdateAt(s.update.value.phase, a)
      && (a.CompileDone? ==> CompilesTo(s.update.value.next, a.plan, a.stages))
  }

  ghost predicate Enabled(s: Sys, a: Step) {
    if IsCallStep(a) then CallEnabled(s, a)
    else if IsTableStep(a) then TableEnabled(s, a)
    else if IsVersionStep(a) then VersionEnabled(s, a)
    else PlannerEnabled(s, a)
  }

  /** compile, validate and prepare turn this planner state into this plan and these kernels. */
  ghost predicate CompilesTo(source: GraphState.State, plan: Compile.Plan, stages: seq<seq<Kernel>>) {
    exists id, nodes, sorted :: Frozen(Version(id, plan, stages), source, nodes, sorted)
  }

  /** A step of a working call. */
  ghost function CallStep(ops: Ops, s: Sys, a: Step): Sys
    requires CallEnabled(s, a)
  {
    if IsEndStep(a) then EndStep(s, a) else TaskStep(ops, s, a)
  }

  /** On the way to the next task. */
  ghost function TaskStep(ops: Ops, s: Sys, a: Step): Sys
    requires CallEnabled(s, a) && !IsEndStep(a)
  {
    match a
    case List(i) => ListStep(s, i)
    case Submit(i, ok) => SubmitStep(s, i, ok)
    case Start(i) => Move(s, i, Started(s.calls[i].phase.task))
    case Refuse(i) => RefuseStep(s, i)
    case CheckCancel(i) => CheckStep(s, i)
    case Mark(i) => MarkStep(s, i)
    case Work(i, fault, view) => WorkStep(ops, s, i, fault, view)
    case Hand(i, ok) => HandStep(s, i, ok)
  }

  /** On the way to the job's record. */
  function EndStep(s: Sys, a: Step): Sys
    requires CallEnabled(s, a) && IsEndStep(a)
  {
    match a
    case Reject(i) => RejectStep(s, i)
    case Rejected(i) => RejectedStep(s, i)
    case Clean(i) => CleanStep(s, i)
    case Fail(i) => FailStep(s, i)
    case Store(i) => StoreStep(s, i)
  }

  /** A step of a caller, collector or finished call. */
  ghost function TableStep(s: Sys, a: Step): Sys
    requires TableEnabled(s, a)
  {
    match a
    case Dispatch(queries) => DispatchStep(s, queries)
    case Return(i) => ReturnStep(s, i)
    case Cancel(j) => CancelStep(s, j)
    case Collect(j) => s.(collectors := s.collectors + [Collector(j, None, false)])
    case Take(c) => TakeStep(s, c)
    case Unlist(c) => UnlistStep(s, c)
  }

  /** A step of an inline reader, or a version going out of use. */
  ghost function VersionStep(s: Sys, a: Step): Sys
    requires VersionEnabled(s, a)
  {
    match a
    case Read => s.(readers := s.readers + [s.current])
    case ReadDone(r) => s.(readers := s.readers[..r] + s.readers[r + 1..])
    case Drop(v) => DropStep(s, v)
  }

  /** A step under the planner lock. */
  ghost function PlannerStep(s: Sys, a: Step): Sys
    requires PlannerEnabled(s, a)
  {
    match a
    case Apply(next) => s.(planner := next)
    case Begin(next, commits) => BeginStep(s, next, commits)
    case CompileDone(plan, stages) => PhaseTo(s, Compiled(plan, stages))
    case Abort => AbortStep(s)
    case Reuse => ReuseStep(s, s.update.value.phase.plan, s.update.value.phase.stages)
    case PrepareDone(keeps) =>
      PreparedStep(s, s.update.value.phase.plan, s.update.value.phase.stages, s.update.value.phase.reuse, keeps)
    case Number => NumberStep(s, s.update.value.phase.plan, s.update.value.phase.stages, s.update.value.phase.backing)
    case Swap => SwapStep(s, s.update.value.phase.version, s.update.value.phase.backing)
    case Publish => PublishStep(s, s.update.value.phase.version)
    case Commit => CommitStep(s)
  }

  ghost function Do(ops: Ops, s: Sys, a: Step): Sys
    requires Enabled(s, a)
  {
    if IsCallStep(a) then CallStep(ops, s, a)
    else if IsTableStep(a) then TableStep(s, a)
    else if IsVersionStep(a) then VersionStep(s, a)
    else PlannerStep(s, a)
  }

  /** Stack::create: the first version, with its own prepared object. */
  function Created(first: Version, planner: GraphState.State): Sys {
    Sys([], [], [], [Deployment(first, Some(0), planner)], 0, first.id, first.id + 1, [], [], 1, None, planner)
  }

  /** The state after a run; None when some step is not enabled where it happens. */
  ghost function Run(ops: Ops, s: Sys, steps: seq<Step>): Option<Sys> {
    if steps == [] then Some(s)
    else
      var before, a := Run(ops, s, steps[..|steps| - 1]), steps[|steps| - 1];
      if before.Some? && Enabled(before.value, a) then Some(Do(ops, before.value, a)) else None
  }
}
