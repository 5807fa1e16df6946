/** Runs that exist: from creation, every batch has a run that ends, and is collected, as inline execution would. */
module Reachability {
  import opened Common
  import opened Model
  import opened Semantics
  import opened Packet
  import opened Grid
  import opened Runtime
  import opened Backend
  import opened Inline
  import opened GraphState
  import opened Compiler
  import opened StackCore
  import opened StackProtocol

  /** Runs from start, here from where base is reached with no call under way. */
  datatype Scene = Scene(ops: Ops, start: Sys, base: Sys)

  predicate Fit(c: Scene) {
    c.base.calls == [] && c.base.current < |c.base.versions|
  }

  /** The version a job dispatched now captures. */
  function Current(c: Scene): Version
    requires Fit(c)
  {
    c.base.versions[c.base.current].version
  }

  /** One more job, and one call for it. */
  function OneJob(c: Scene, job: Job, phase: Phase): Sys {
    c.base.(jobs := c.base.jobs + [job], calls := [Call(|c.base.jobs|, phase)])
  }

  /** An undisturbed job. */
  function Plain(
    c: Scene, queries: seq<ChunkQuery>, record: Record, packet: Option<View>, start: View, log: seq<Task>): Job
  {
    var writes := if record.Terminal() then 1 else 0;
    Job(c.base.current, queries, false, record, true, packet, start, log, false, [], None, [], writes, false, false)
  }

  ghost predicate At(c: Scene, steps: seq<Step>, job: Job, phase: Phase) {
    Run(c.ops, c.start, steps) == Some(OneJob(c, job, phase))
  }

  predicate Sound(c: Scene, job: Job) {
    Fit(c) && job.version == c.base.current && !job.cancel && AllValid(job.queries)
  }

  /** One step of the one call. */
  ghost predicate Moves(c: Scene, job: Job, phase: Phase, a: Step, job': Job, phase': Phase) {
    CallEnabled(OneJob(c, job, phase), a) && CallStep(c.ops, OneJob(c, job, phase), a) == OneJob(c, job', phase')
  }

  lemma Extend(c: Scene, steps: seq<Step>, s: Sys, a: Step)
    requires Run(c.ops, c.start, steps) == Some(s) && Enabled(s, a)
    ensures Run(c.ops, c.start, steps + [a]) == Some(Do(c.ops, s, a))
  {
    hide Enabled, Do;
    assert (steps + [a])[..|steps|] == steps;
  }

  lemma Follow(c: Scene, steps: seq<Step>, job: Job, phase: Phase, a: Step, job': Job, phase': Phase)
    requires At(c, steps, job, phase) && Moves(c, job, phase, a, job', phase')
    ensures At(c, steps + [a], job', phase')
  {
    hide Run, PhaseAllows, CallStep, TableEnabled, VersionEnabled, PlannerEnabled, TableStep, VersionStep, PlannerStep;
    Extend(c, steps, OneJob(c, job, phase), a);
  }

  lemma OneJobParts(c: Scene, job: Job, phase: Phase, job': Job, phase': Phase)
    requires Sound(c, job)
    ensures InCall(OneJob(c, job, phase), 0)
    ensures var s := OneJob(c, job, phase);
      && s.calls[0] == Call(|c.base.jobs|, phase) && JobOf(s, 0) == job && VersionOf(s, 0) == Current(c)
      && Move(s, 0, phase') == OneJob(c, job, phase')
      && With(Move(s, 0, phase'), 0, job') == OneJob(c, job', phase')
  {}

  // ---------------------------------------------------------------- single steps

  lemma ListMoves(c: Scene, job: Job)
    requires Sound(c, job)
    ensures Moves(c, job, Capturing, List(0), job.(listed := true), Submitting)
  {
    hide Move, With, OneJob;
    OneJobParts(c, job, Capturing, job.(listed := true), Submitting);
  }

  lemma SubmitMoves(c: Scene, job: Job)
    requires Sound(c, job)
    ensures Moves(c, job, Submitting, Submit(0, true), job, Queued(EncodeTask))
  {
    hide Move, With, OneJob;
    OneJobParts(c, job, Submitting, job, Queued(EncodeTask));
  }

  lemma StartMoves(c: Scene, job: Job, task: Task)
    requires Sound(c, job)
    ensures Moves(c, job, Queued(task), Start(0), job, Started(task))
  {
    hide Move, With, OneJob;
    OneJobParts(c, job, Queued(task), job, Started(task));
  }

  lemma CheckMoves(c: Scene, job: Job, task: Task)
    requires Sound(c, job)
    ensures Moves(c, job, Started(task), CheckCancel(0), job, if task.EncodeTask? then Marking else Working(task))
  {
    hide Move, With, OneJob;
    OneJobParts(c, job, Started(task), job, if task.EncodeTask? then Marking else Working(task));
  }

  lemma MarkMoves(c: Scene, job: Job)
    requires Sound(c, job)
    ensures Moves(c, job, Marking, Mark(0), job.(record := Active), Working(EncodeTask))
  {
    hide Move, With, OneJob;
    OneJobParts(c, job, Marking, job.(record := Active), Working(EncodeTask));
  }

  /** What encoding the job's batch into a cleared packet gives. */
  function EncodedIn(c: Scene, queries: seq<ChunkQuery>, view: View): Result<View>
    requires Fit(c) && AllValid(queries)
  {
    Encoded(Current(c).plan.meta.dimension, queries, Loaded(Cleared(view), Current(c).plan.statics))
  }

  lemma EncodeMoves(c: Scene, job: Job, view: View)
    requires Sound(c, job) && job.packet.None?
    ensures var r, logged := EncodedIn(c, job.queries, view), job.(log := job.log + [EncodeTask], start := view);
      Moves(c, job, Working(EncodeTask), Work(0, None, view),
            if r.Ok? then logged.(packet := Some(r.value)) else logged,
            if r.Ok? then Handing(EncodeTask) else Unwinding(r.error))
  {
    hide Move, With, OneJob, Encoded, Loaded, Cleared;
    var r, logged := EncodedIn(c, job.queries, view), job.(log := job.log + [EncodeTask], start := view);
    OneJobParts(c, job, Working(EncodeTask), if r.Ok? then logged.(packet := Some(r.value)) else logged,
                if r.Ok? then Handing(EncodeTask) else Unwinding(r.error));
  }

  lemma StageMoves(c: Scene, job: Job, k: nat)
    requires Sound(c, job) && job.packet.Some? && k < |Current(c).stages|
    ensures var r := RunStage(c.ops, Current(c).stages[k], job.packet.value);
      Moves(c, job, Working(StageTask(k)), Work(0, None, View(0, map[])),
            job.(log := job.log + [StageTask(k)], packet := Some(if r.Ok? then r.value else View(0, map[]))),
            if r.Ok? then Handing(StageTask(k)) else Unwinding(r.error))
  {
    hide Move, With, OneJob, RunStage;
    var r := RunStage(c.ops, Current(c).stages[k], job.packet.value);
    OneJobParts(
      c, job, Working(StageTask(k)),
      job.(log := job.log + [StageTask(k)], packet := Some(if r.Ok? then r.value else View(0, map[]))),
      if r.Ok? then Handing(StageTask(k)) else Unwinding(r.error));
  }

  lemma DecodeMoves(c: Scene, job: Job)
    requires Sound(c, job) && job.packet.Some?
    ensures var r := Decoded(Current(c).plan.meta.finalSlot, job.packet.value);
      Moves(c, job, Working(DecodeTask), Work(0, None, View(0, map[])),
            job.(log := job.log + [DecodeTask], packet := None),
            if r.Ok? then Storing(r.value) else Unwinding(r.error))
  {
    hide Move, With, OneJob, Decoded;
    var r := Decoded(Current(c).plan.meta.finalSlot, job.packet.value);
    OneJobParts(c, job, Working(DecodeTask), job.(log := job.log + [DecodeTask], packet := None),
                if r.Ok? then Storing(r.value) else Unwinding(r.error));
  }

  lemma StoreMoves(c: Scene, job: Job, values: Values)
    requires Sound(c, job)
    ensures Moves(c, job, Storing(values), Store(0), job.(record := Completed(Some(values)), writes := job.writes + 1),
                  Returning)
  {
    hide Move, With, OneJob;
    OneJobParts(c, job, Storing(values), job.(record := Completed(Some(values)), writes := job.writes + 1), Returning);
  }

  lemma CleanMoves(c: Scene, job: Job, e: BraidError)
    requires Sound(c, job)
    ensures Moves(c, job, Unwinding(e), Clean(0), job.(packet := None), Failing(e))
  {
    hide Move, With, OneJob;
    OneJobParts(c, job, Unwinding(e), job.(packet := None), Failing(e));
  }

  lemma FailMoves(c: Scene, job: Job, e: BraidError)
    requires Sound(c, job) && e != Cancelled
    ensures Moves(c, job, Failing(e), Fail(0), job.(record := Failed(Some(e)), writes := job.writes + 1), Returning)
  {
    hide Move, With, OneJob;
    OneJobParts(c, job, Failing(e), job.(record := Failed(Some(e)), writes := job.writes + 1), Returning);
  }

  /** The next task's call takes over and the old call returns. */
  lemma HandsOver(c: Scene, steps: seq<Step>, job: Job, task: Task)
    requires At(c, steps, job, Handing(task)) && Sound(c, job)
    ensures At(c, steps + [Hand(0, true)] + [Return(0)], job, Queued(NextTask(task, |Current(c).stages|)))
  {
    hide Run, CallStep, TableStep, VersionStep, PlannerStep, PlannerEnabled, VersionEnabled;
    var s, next := OneJob(c, job, Handing(task)), NextTask(task, |Current(c).stages|);
    HandMoves(c, job, task);
    Extend(c, steps, s, Hand(0, true));
    var mid := HandStep(s, 0, true);
    ReturnMoves(c, job, mid, next);
    Extend(c, steps + [Hand(0, true)], mid, Return(0));
  }

  lemma HandMoves(c: Scene, job: Job, task: Task)
    requires Sound(c, job)
    ensures var s := OneJob(c, job, Handing(task));
      && InCall(s, 0) && Enabled(s, Hand(0, true)) && Do(c.ops, s, Hand(0, true)) == HandStep(s, 0, true)
      && HandStep(s, 0, true) == OneJob(c, job, Handing(task)).(
        calls := [Call(|c.base.jobs|, Returning), Call(|c.base.jobs|, Queued(NextTask(task, |Current(c).stages|)))])
  {
    hide TableStep, VersionStep, PlannerStep, PlannerEnabled, VersionEnabled;
  }

  lemma ReturnMoves(c: Scene, job: Job, s: Sys, next: Task)
    requires Sound(c, job)
    requires s == OneJob(c, job, Returning).(
      calls := [Call(|c.base.jobs|, Returning), Call(|c.base.jobs|, Queued(next))])
    ensures Enabled(s, Return(0)) && Do(c.ops, s, Return(0)) == OneJob(c, job, Queued(next))
  {
    hide CallStep, VersionStep, PlannerStep, PlannerEnabled, VersionEnabled;
    assert s.calls[..0] + s.calls[1..] == [Call(|c.base.jobs|, Queued(next))];
  }

  // ---------------------------------------------------------------- an undisturbed run

  /** Dispatch, up to the planner call of the encode task. */
  function BeginRun(before: seq<Step>, queries: seq<ChunkQuery>): seq<Step> {
    before + [Dispatch(queries)] + [List(0)] + [Submit(0, true)] + [Start(0)] + [CheckCancel(0)] + [Mark(0)]
  }

  /** The run reaches the base. */
  ghost predicate Ready(c: Scene, before: seq<Step>) {
    Fit(c) && Run(c.ops, c.start, before) == Some(c.base)
  }

  lemma Dispatched(c: Scene, before: seq<Step>, queries: seq<ChunkQuery>)
    requires Ready(c, before) && AllValid(queries)
    ensures At(c, before + [Dispatch(queries)],
               Plain(c, queries, Pending, None, View(0, map[]), []).(listed := false), Capturing)
  {
    hide Run, CallStep, VersionStep, PlannerStep, PlannerEnabled, VersionEnabled;
    var s, job := c.base, Plain(c, queries, Pending, None, View(0, map[]), []).(listed := false);
    Extend(c, before, s, Dispatch(queries));
    assert s.calls + [Call(|s.jobs|, Capturing)] == [Call(|s.jobs|, Capturing)];
    assert Do(c.ops, s, Dispatch(queries)) == DispatchStep(s, queries);
  }

  lemma Begun(c: Scene, before: seq<Step>, queries: seq<ChunkQuery>)
    requires Ready(c, before) && AllValid(queries)
    ensures At(c, BeginRun(before, queries), Plain(c, queries, Active, None, View(0, map[]), []), Working(EncodeTask))
  {
    hide At, Moves, Run;
    var job := Plain(c, queries, Pending, None, View(0, map[]), []);
    var s1 := before + [Dispatch(queries)];
    Dispatched(c, before, queries);
    ListMoves(c, job.(listed := false));
    Follow(c, s1, job.(listed := false), Capturing, List(0), job, Submitting);
    SubmitMoves(c, job);
    Follow(c, s1 + [List(0)], job, Submitting, Submit(0, true), job, Queued(EncodeTask));
    var s3 := s1 + [List(0)] + [Submit(0, true)];
    StartMoves(c, job, EncodeTask);
    Follow(c, s3, job, Queued(EncodeTask), Start(0), job, Started(EncodeTask));
    CheckMoves(c, job, EncodeTask);
    Follow(c, s3 + [Start(0)], job, Started(EncodeTask), CheckCancel(0), job, Marking);
    MarkMoves(c, job);
    Follow(c, s3 + [Start(0)] + [CheckCancel(0)], job, Marking, Mark(0), job.(record := Active), Working(EncodeTask));
  }

  /** From a finished task to the work of the next one. */
  lemma NextBegun(c: Scene, steps: seq<Step>, job: Job, task: Task) returns (more: seq<Step>)
    requires At(c, steps, job, Handing(task)) && Sound(c, job)
    ensures At(c, more, job, Working(NextTask(task, |Current(c).stages|)))
  {
    hide At, Moves;
    var next := NextTask(task, |Current(c).stages|);
    more := steps + [Hand(0, true)] + [Return(0)];
    HandsOver(c, steps, job, task);
    StartMoves(c, job, next);
    Follow(c, more, job, Queued(next), Start(0), job, Started(next));
    CheckMoves(c, job, next);
    Follow(c, more + [Start(0)], job, Started(next), CheckCancel(0), job, Working(next));
    more := more + [Start(0)] + [CheckCancel(0)];
  }

  lemma Encodes(c: Scene, before: seq<Step>, queries: seq<ChunkQuery>, view: View)
    requires Ready(c, before) && AllValid(queries)
    ensures var r := EncodedIn(c, queries, view);
      At(c, BeginRun(before, queries) + [Work(0, None, view)],
         Plain(c, queries, Active, if r.Ok? then Some(r.value) else None, view, [EncodeTask]),
         if r.Ok? then Handing(EncodeTask) else Unwinding(r.error))
  {
    hide At, Moves, EncodedIn, BeginRun;
    var job, r := Plain(c, queries, Active, None, View(0, map[]), []), EncodedIn(c, queries, view);
    Begun(c, before, queries);
    EncodeMoves(c, job, view);
    var none: seq<Task> := [];
    assert none + [EncodeTask] == [EncodeTask];
    Follow(c, BeginRun(before, queries), job, Working(EncodeTask), Work(0, None, view),
           Plain(c, queries, Active, if r.Ok? then Some(r.value) else None, view, [EncodeTask]),
           if r.Ok? then Handing(EncodeTask) else Unwinding(r.error));
  }

  /** The last task of k stages. */
  function LastTask(k: nat): Task {
    if k == 0 then EncodeTask else StageTask(k - 1)
  }

  /** After k stages, or the first failing one of them. */
  lemma {:induction false} StagesReached(c: Scene, before: seq<Step>, queries: seq<ChunkQuery>, view: View, k: nat)
    returns (steps: seq<Step>, packet: Option<View>, log: seq<Task>)
    requires Ready(c, before) && AllValid(queries) && k <= |Current(c).stages| && EncodedIn(c, queries, view).Ok?
    ensures var r := RunStages(c.ops, Current(c).stages[..k], EncodedIn(c, queries, view).value);
      && (r.Ok? ==> packet == Some(r.value))
      && At(c, steps, Plain(c, queries, Active, packet, view, log),
            if r.Ok? then Handing(LastTask(k)) else Unwinding(r.error))
  {
    hide At, EncodedIn, RunStage, BeginRun, Plain, Fit;
    if k == 0 {
      Encodes(c, before, queries, view);
      steps, log := BeginRun(before, queries) + [Work(0, None, view)], [EncodeTask];
      packet := Some(EncodedIn(c, queries, view).value);
    } else {
      steps, packet, log := StagesReached(c, before, queries, view, k - 1);
      assert Current(c).stages[..k][..k - 1] == Current(c).stages[..k - 1];
      if RunStages(c.ops, Current(c).stages[..k - 1], EncodedIn(c, queries, view).value).Ok? {
        steps, packet, log := StageReached(c, steps, queries, view, k - 1, packet.value, log);
      }
    }
  }

  lemma StageReached(
    c: Scene, before: seq<Step>, queries: seq<ChunkQuery>, view: View, k: nat, now: View, calls: seq<Task>)
    returns (steps: seq<Step>, packet: Option<View>, log: seq<Task>)
    requires Fit(c) && AllValid(queries) && k < |Current(c).stages|
    requires At(c, before, Plain(c, queries, Active, Some(now), view, calls), Handing(LastTask(k)))
    ensures var r := RunStage(c.ops, Current(c).stages[k], now);
      && (r.Ok? ==> packet == Some(r.value))
      && At(c, steps, Plain(c, queries, Active, packet, view, log),
            if r.Ok? then Handing(StageTask(k)) else Unwinding(r.error))
  {
    hide At, Moves, RunStage;
    var job, r := Plain(c, queries, Active, Some(now), view, calls), RunStage(c.ops, Current(c).stages[k], now);
    steps := NextBegun(c, before, job, LastTask(k));
    StageMoves(c, job, k);
    packet, log := Some(if r.Ok? then r.value else View(0, map[])), calls + [StageTask(k)];
    Follow(c, steps, job, Working(StageTask(k)), Work(0, None, View(0, map[])),
           Plain(c, queries, Active, packet, view, log), if r.Ok? then Handing(StageTask(k)) else Unwinding(r.error));
    steps := steps + [Work(0, None, View(0, map[]))];
  }

  lemma DecodeReached(
    c: Scene, before: seq<Step>, queries: seq<ChunkQuery>, view: View, now: View, calls: seq<Task>)
    returns (steps: seq<Step>, log: seq<Task>)
    requires Fit(c) && AllValid(queries)
    requires At(c, before, Plain(c, queries, Active, Some(now), view, calls), Handing(LastTask(|Current(c).stages|)))
    ensures var r := Decoded(Current(c).plan.meta.finalSlot, now);
      At(c, steps, Plain(c, queries, Active, None, view, log), if r.Ok? then Storing(r.value) else Unwinding(r.error))
  {
    hide At, Moves, Decoded;
    var job, r := Plain(c, queries, Active, Some(now), view, calls), Decoded(Current(c).plan.meta.finalSlot, now);
    steps := NextBegun(c, before, job, LastTask(|Current(c).stages|));
    DecodeMoves(c, job);
    log := calls + [DecodeTask];
    Follow(c, steps, job, Working(DecodeTask), Work(0, None, View(0, map[])),
           Plain(c, queries, Active, None, view, log),
           if r.Ok? then Storing(r.value) else Unwinding(r.error));
    steps := steps + [Work(0, None, View(0, map[]))];
  }

  /** All planner and backend calls of a job, up to writing its record. */
  lemma WorkReached(c: Scene, before: seq<Step>, queries: seq<ChunkQuery>, view: View)
    returns (steps: seq<Step>, packet: Option<View>, log: seq<Task>)
    requires Ready(c, before) && AllValid(queries)
    ensures var r := Executed(c.ops, Current(c).plan, Current(c).stages, queries, view);
      && (r.Ok? ==> packet.None?)
      && At(c, steps, Plain(c, queries, Active, packet, view, log),
            if r.Ok? then Storing(r.value) else Unwinding(r.error))
  {
    hide At, RunStages, Decoded, Encoded, Loaded, Cleared, BeginRun;
    var encoded, n := EncodedIn(c, queries, view), |Current(c).stages|;
    if encoded.Err? {
      Encodes(c, before, queries, view);
      steps, packet, log := BeginRun(before, queries) + [Work(0, None, view)], None, [EncodeTask];
    } else {
      steps, packet, log := StagesReached(c, before, queries, view, n);
      assert Current(c).stages[..n] == Current(c).stages;
      if RunStages(c.ops, Current(c).stages, encoded.value).Ok? {
        steps, log := DecodeReached(c, steps, queries, view, packet.value, log);
        packet := None;
      }
    }
  }

  /**
   * From creation, any batch on any packet has a run whose job ends as inline execution would: completed with its
   * values, or failed with its error.
   */
  lemma InlineReached(c: Scene, before: seq<Step>, queries: seq<ChunkQuery>, view: View)
    returns (steps: seq<Step>, log: seq<Task>)
    requires Ready(c, before) && AllValid(queries)
    ensures var r := Executed(c.ops, Current(c).plan, Current(c).stages, queries, view);
      At(c, steps, Plain(c, queries, RecordOf(r), None, view, log), Returning)
  {
    hide At, Plain, Executed;
    var r, packet := Executed(c.ops, Current(c).plan, Current(c).stages, queries, view), None;
    NeverCancelled(c.ops, Current(c).plan, Current(c).stages, queries, view);
    steps, packet, log := WorkReached(c, before, queries, view);
    match r {
      case Ok(values) => steps := Completes(c, steps, queries, view, log, values);
      case Err(e) => steps := Fails(c, steps, queries, view, packet, log, e);
    }
  }

  lemma Completes(c: Scene, before: seq<Step>, queries: seq<ChunkQuery>, view: View, log: seq<Task>, values: Values)
    returns (steps: seq<Step>)
    requires Fit(c) && AllValid(queries)
    requires At(c, before, Plain(c, queries, Active, None, view, log), Storing(values))
    ensures At(c, steps, Plain(c, queries, Completed(Some(values)), None, view, log), Returning)
  {
    hide At, Moves;
    var job := Plain(c, queries, Active, None, view, log);
    var done := Plain(c, queries, Completed(Some(values)), None, view, log);
    StoreMoves(c, job, values);
    Follow(c, before, job, Storing(values), Store(0), done, Returning);
    steps := before + [Store(0)];
  }

  lemma Fails(c: Scene, before: seq<Step>, queries: seq<ChunkQuery>, view: View, packet: Option<View>,
              log: seq<Task>, e: BraidError)
    returns (steps: seq<Step>)
    requires Fit(c) && AllValid(queries) && e != Cancelled
    requires At(c, before, Plain(c, queries, Active, packet, view, log), Unwinding(e))
    ensures At(c, steps, Plain(c, queries, Failed(Some(e)), None, view, log), Returning)
  {
    hide At, Moves;
    var job, done := Plain(c, queries, Active, packet, view, log), Plain(c, queries, Failed(Some(e)), None, view, log);
    CleanMoves(c, job, e);
    Follow(c, before, job, Unwinding(e), Clean(0), job.(packet := None), Failing(e));
    FailMoves(c, job.(packet := None), e);
    Follow(c, before + [Clean(0)], job.(packet := None), Failing(e), Fail(0), done, Returning);
    steps := before + [Clean(0)] + [Fail(0)];
  }

  /** The call returns; the job stays in its end state. */
  lemma Settled(c: Scene, steps: seq<Step>, job: Job)
    requires At(c, steps, job, Returning) && Sound(c, job)
    ensures Run(c.ops, c.start, steps + [Return(0)]) == Some(c.base.(jobs := c.base.jobs + [job]))
  {
    hide Run, CallStep, VersionStep, PlannerStep, PlannerEnabled, VersionEnabled;
    var s := OneJob(c, job, Returning);
    Extend(c, steps, s, Return(0));
    assert s.calls[..0] + s.calls[1..] == [];
  }

  /** collect on a job that is completed and listed: it receives the values, and the job leaves the table. */
  lemma Collected(c: Scene, steps: seq<Step>, s: Sys, j: nat, values: Values)
    requires Run(c.ops, c.start, steps) == Some(s) && j < |s.jobs| && s.jobs[j].listed
    requires s.jobs[j].record == Completed(Some(values)) && s.jobs[j].delivered == []
    ensures var n := |s.collectors|;
      Run(c.ops, c.start, steps + [Collect(j)] + [Take(n)] + [Unlist(n)]) == Some(s.(
        jobs := s.jobs[j := s.jobs[j].(record := Completed(None), delivered := [values], giver := Some(n),
                                       listed := false)],
        collectors := s.collectors + [Collector(j, Some(Ok(values)), true)]))
  {
    hide Run, CallStep, VersionStep, PlannerStep, PlannerEnabled, VersionEnabled;
    var n := |s.collectors|;
    var asked := s.(collectors := s.collectors + [Collector(j, None, false)]);
    Extend(c, steps, s, Collect(j));
    var took := TakeStep(asked, n);
    Extend(c, steps + [Collect(j)], asked, Take(n));
    var none: seq<Values> := [];
    assert none + [values] == [values];
    Extend(c, steps + [Collect(j)] + [Take(n)], took, Unlist(n));
    assert UnlistStep(took, n).collectors == s.collectors + [Collector(j, Some(Ok(values)), true)];
    assert UnlistStep(took, n).jobs == s.jobs[j := s.jobs[j].(record := Completed(None), delivered := [values],
                                                              giver := Some(n), listed := false)];
  }

  /**
   * Below 2^32 samples, wherever all nodes of the source graph run, a new stack has a run that delivers the graph's
   * evaluation of the batch.
   */
  lemma AnswerReached(
    ops: Ops, first: Version, planner: State, nodes: seq<NodeSpec>, sorted: seq<nat>, queries: seq<ChunkQuery>,
    view: View)
    returns (steps: seq<Step>, job: Job, values: Values)
    requires Frozen(first, planner, nodes, sorted)
    requires AllValid(queries) && ValidBatch(planner.dim, queries) && Total(queries) < U32_COUNT
    requires AllRun(ops, planner, Occasion(Total(queries) > 0, HasThird(view)))
    ensures var end := Run(ops, Created(first, planner), steps);
      end.Some? && end.value.jobs == [job] && end.value.collectors == [Collector(0, Some(Ok(values)), true)]
    ensures job.queries == queries && job.record.Completed? && job.delivered == [values]
    ensures AnswersBatch(ops, planner.nodes, planner.finalField, queries, values)
  {
    hide Run, At, Frozen, AllRun, AnswersBatch, Total, Executed, HasThird;
    var c, log := Scene(ops, Created(first, planner), Created(first, planner)), [];
    StartsReady(c);
    steps, log := InlineReached(c, [], queries, view);
    FrozenAnswers(ops, first, planner, nodes, sorted, queries, view);
    var r := Executed(ops, first.plan, first.stages, queries, view);
    assert r == Returned(ops, first, queries, view);
    values := r.value;
    var ended := Plain(c, queries, RecordOf(r), None, view, log);
    Settled(c, steps, ended);
    steps := steps + [Return(0)];
    Collected(c, steps, c.base.(jobs := c.base.jobs + [ended]), 0, values);
    steps := steps + [Collect(0)] + [Take(0)] + [Unlist(0)];
    job := ended.(record := Completed(None), delivered := [values], giver := Some(0), listed := false);
  }

  lemma StartsReady(c: Scene)
    requires c.base == c.start && Fit(c)
    ensures Ready(c, [])
  {}

  /**
   * Two jobs of one stack, dispatched one after the other and collected in the opposite order: each collect call
   * receives the values of the job it asked for.
   */
  lemma EachItsOwn(
    ops: Ops, first: Version, planner: State, q0: seq<ChunkQuery>, q1: seq<ChunkQuery>, view0: View, view1: View)
    returns (steps: seq<Step>, end: Sys)
    requires AllValid(q0) && AllValid(q1)
    requires Executed(ops, first.plan, first.stages, q0, view0).Ok?
    requires Executed(ops, first.plan, first.stages, q1, view1).Ok?
    ensures Run(ops, Created(first, planner), steps) == Some(end) && |end.jobs| == 2
    ensures end.jobs[0].queries == q0 && end.jobs[1].queries == q1 && !end.jobs[0].listed && !end.jobs[1].listed
    ensures end.collectors == [
      Collector(1, Some(Executed(ops, first.plan, first.stages, q1, view1)), true),
      Collector(0, Some(Executed(ops, first.plan, first.stages, q0, view0)), true)]
  {
    hide Run, At, Executed;
    var c, log := Scene(ops, Created(first, planner), Created(first, planner)), [];
    StartsReady(c);
    steps, log := InlineReached(c, [], q0, view0);
    var r0 := Executed(ops, first.plan, first.stages, q0, view0);
    var r1 := Executed(ops, first.plan, first.stages, q1, view1);
    var job0 := Plain(c, q0, RecordOf(r0), None, view0, log);
    Settled(c, steps, job0);
    var before := steps + [Return(0)];
    var d := Scene(ops, c.start, c.base.(jobs := c.base.jobs + [job0]));
    steps, log := InlineReached(d, before, q1, view1);
    var job1 := Plain(d, q1, RecordOf(r1), None, view1, log);
    Settled(d, steps, job1);
    var s := d.base.(jobs := d.base.jobs + [job1]);
    assert s.jobs == [job0, job1];
    steps := steps + [Return(0)];
    Collected(c, steps, s, 1, r1.value);
    var mid := s.(jobs := [job0, job1.(record := Completed(None), delivered := [r1.value], giver := Some(0),
                                       listed := false)],
                  collectors := [Collector(1, Some(Ok(r1.value)), true)]);
    assert s.collectors + [Collector(1, Some(Ok(r1.value)), true)] == mid.collectors;
    assert s.jobs[1 := mid.jobs[1]] == mid.jobs;
    steps := steps + [Collect(1)] + [Take(0)] + [Unlist(0)];
    Collected(c, steps, mid, 0, r0.value);
    steps := steps + [Collect(0)] + [Take(1)] + [Unlist(1)];
    end := Run(ops, c.start, steps).value;
  }
}
