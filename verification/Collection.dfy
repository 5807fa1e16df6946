/** Handles: the job a dispatch starts, the outcome a collect call receives, and the jobs a step can touch. */
module Collection {
  import opened Common
  import opened Model
  import opened Semantics
  import opened Inline
  import opened GraphState
  import opened StackCore
  import opened StackProtocol
  import opened JobSafety
  import VersionSafety

  // ---------------------------------------------------------------- one step

  /** The job a step speaks about: its call's, the one to cancel, or the one its collector was asked for. */
  ghost predicate Concerns(s: Sys, a: Step, j: nat)
    requires Enabled(s, a)
  {
    || (IsCallStep(a) && s.calls[a.i].job == j)
    || (a.Cancel? && a.j == j)
    || (a.Take? && s.collectors[a.c].job == j)
    || (a.Unlist? && s.collectors[a.c].job == j)
  }

  /** Every step leaves all other jobs as they are. */
  lemma OthersUntouched(ops: Ops, s: Sys, a: Step, j: nat)
    requires Enabled(s, a) && j < |s.jobs| && !Concerns(s, a, j)
    ensures |Do(ops, s, a).jobs| >= |s.jobs| && Do(ops, s, a).jobs[j] == s.jobs[j]
  {
    hide CallStep, CallEnabled, TableEnabled, VersionEnabled, PlannerEnabled, VersionStep, PlannerStep, TableStep;
    if IsCallStep(a) {
      CallShaped(ops, s, a);
    } else if IsTableStep(a) {
      TableTouches(s, a, j);
    } else if IsVersionStep(a) {
      VersionTouches(s, a);
    } else {
      PlannerTouches(s, a);
    }
  }

  lemma CallShaped(ops: Ops, s: Sys, a: Step)
    requires CallEnabled(s, a)
    ensures VersionSafety.CallShape(s, CallStep(ops, s, a), a.i)
  {
    hide CallStep;
    if IsEndStep(a) {
      VersionSafety.EndStepShape(ops, s, a);
    } else {
      VersionSafety.TaskStepShape(ops, s, a);
    }
  }

  lemma TableTouches(s: Sys, a: Step, j: nat)
    requires TableEnabled(s, a) && j < |s.jobs|
    requires a.Cancel? ==> a.j != j
    requires a.Take? || a.Unlist? ==> s.collectors[a.c].job != j
    ensures |TableStep(s, a).jobs| >= |s.jobs| && TableStep(s, a).jobs[j] == s.jobs[j]
  {
    hide PastDecodeCheck, Outcome, Taken;
  }

  lemma VersionTouches(s: Sys, a: Step)
    requires VersionEnabled(s, a)
    ensures VersionStep(s, a).jobs == s.jobs && VersionStep(s, a).collectors == s.collectors
  {
    hide Referenced;
  }

  lemma PlannerTouches(s: Sys, a: Step)
    requires PlannerEnabled(s, a)
    ensures PlannerStep(s, a).jobs == s.jobs && PlannerStep(s, a).collectors == s.collectors
  {
    hide CompilesTo;
  }

  /** What a dispatch starts: a job on the version current now, with the batch given, and a call for it. */
  lemma DispatchStarts(ops: Ops, s: Sys, queries: seq<ChunkQuery>)
    requires Enabled(s, Dispatch(queries))
    ensures var s' := Do(ops, s, Dispatch(queries));
      && |s'.jobs| == |s.jobs| + 1 && s'.jobs[|s.jobs|].queries == queries && s'.jobs[|s.jobs|].version == s.current
      && s'.jobs[|s.jobs|].record.Pending? && !s'.jobs[|s.jobs|].cancel
      && |s'.calls| == |s.calls| + 1 && s'.calls[|s.calls|].job == |s.jobs|
  {
    hide CallStep, VersionStep, PlannerStep, VersionEnabled, PlannerEnabled;
  }

  /** cancel sets the flag of the job it names. */
  lemma CancelSets(ops: Ops, s: Sys, j: nat)
    requires Enabled(s, Cancel(j))
    ensures j < |s.jobs| && Do(ops, s, Cancel(j)).jobs[j].cancel
    ensures Do(ops, s, Cancel(j)).jobs[j].record == s.jobs[j].record
  {
    hide CallStep, VersionStep, PlannerStep, VersionEnabled, PlannerEnabled, PastDecodeCheck;
  }

  /** collect ends by taking the job it named out of the table. */
  lemma UnlistRemoves(ops: Ops, s: Sys, c: nat)
    requires Enabled(s, Unlist(c))
    ensures var j, s' := s.collectors[c].job, Do(ops, s, Unlist(c));
      j < |s'.jobs| && !s'.jobs[j].listed && s'.collectors[c].done && s'.collectors[c].got == s.collectors[c].got
  {
    hide CallStep, VersionStep, PlannerStep, VersionEnabled, PlannerEnabled, PastDecodeCheck;
  }

  // ---------------------------------------------------------------- handles

  /** The batches dispatched in a run, in order: the j-th dispatch makes job j. */
  function Sent(steps: seq<Step>): seq<seq<ChunkQuery>> {
    if steps == [] then []
    else
      var before, a := Sent(steps[..|steps| - 1]), steps[|steps| - 1];
      if a.Dispatch? then before + [a.queries] else before
  }

  /** The handles collect was called with in a run, in order. */
  function Asked(steps: seq<Step>): seq<nat> {
    if steps == [] then []
    else
      var before, a := Asked(steps[..|steps| - 1]), steps[|steps| - 1];
      if a.Collect? then before + [a.j] else before
  }

  /** Job j is the one the j-th dispatch started, and collector c the one of the c-th collect call. */
  ghost predicate HandlesAgree(s: Sys, sent: seq<seq<ChunkQuery>>, asked: seq<nat>) {
    && |s.jobs| == |sent| && (forall j :: 0 <= j < |sent| ==> s.jobs[j].queries == sent[j])
    && |s.collectors| == |asked| && (forall c :: 0 <= c < |asked| ==> s.collectors[c].job == asked[c])
  }

  lemma TableHandles(s: Sys, a: Step, sent: seq<seq<ChunkQuery>>, asked: seq<nat>)
    requires TableEnabled(s, a) && HandlesAgree(s, sent, asked)
    ensures HandlesAgree(TableStep(s, a), if a.Dispatch? then sent + [a.queries] else sent,
                         if a.Collect? then asked + [a.j] else asked)
  {
    hide PastDecodeCheck, Outcome;
  }

  lemma StepHandles(ops: Ops, s: Sys, a: Step, sent: seq<seq<ChunkQuery>>, asked: seq<nat>)
    requires Enabled(s, a) && HandlesAgree(s, sent, asked)
    ensures HandlesAgree(Do(ops, s, a), if a.Dispatch? then sent + [a.queries] else sent,
                         if a.Collect? then asked + [a.j] else asked)
  {
    hide CallStep, CallEnabled, TableEnabled, VersionEnabled, PlannerEnabled, VersionStep, PlannerStep, TableStep;
    if IsCallStep(a) {
      CallShaped(ops, s, a);
    } else if IsTableStep(a) {
      TableHandles(s, a, sent, asked);
    } else if IsVersionStep(a) {
      VersionTouches(s, a);
    } else {
      PlannerTouches(s, a);
    }
  }

  /** Over any run, handles are the order of dispatch, and collectors the order of collect calls. */
  lemma {:induction false} RunHandles(ops: Ops, first: Version, planner: State, steps: seq<Step>)
    requires Run(ops, Created(first, planner), steps).Some?
    ensures HandlesAgree(Run(ops, Created(first, planner), steps).value, Sent(steps), Asked(steps))
  {
    hide Enabled, Do, HandlesAgree;
    if steps == [] {
      NoHandles(first, planner);
    } else {
      var init := steps[..|steps| - 1];
      RunHandles(ops, first, planner, init);
      StepHandles(ops, Run(ops, Created(first, planner), init).value, steps[|steps| - 1], Sent(init), Asked(init));
    }
  }

  lemma NoHandles(first: Version, planner: State)
    ensures HandlesAgree(Created(first, planner), [], [])
  {}

  // ---------------------------------------------------------------- outcomes

  /** What collector c of job b has received, if anything. */
  ghost predicate Received(b: Job, c: nat, got: Option<Result<Values>>) {
    match got
    case None => true
    case Some(Ok(values)) =>
      b.record == Completed(None) && b.delivered != [] && values == if b.giver == Some(c) then b.delivered[0] else []
    case Some(Err(e)) =>
      || (b.record.CancelledRecord? && e == Cancelled)
      || (b.record.Failed? && (e in b.reported || e == Message))
  }

  /** The collector a job's values went to has them. */
  ghost predicate Given(s: Sys, b: Job, j: nat) {
    b.giver.Some? ==>
      && b.delivered != [] && b.giver.value < |s.collectors| && s.collectors[b.giver.value].job == j
      && s.collectors[b.giver.value].got == Some(Ok(b.delivered[0]))
  }

  ghost predicate Served(s: Sys) {
    && (forall c :: 0 <= c < |s.collectors| ==>
         s.collectors[c].job < |s.jobs| && Received(s.jobs[s.collectors[c].job], c, s.collectors[c].got))
    && (forall j :: 0 <= j < |s.jobs| ==> Given(s, s.jobs[j], j))
  }

  /** Nothing a collector received is taken back by what happens to the job later. */
  lemma ReceivedLater(b: Job, b': Job, c: nat, got: Option<Result<Values>>)
    requires Received(b, c, got) && Evolves(b, b') && (b.giver.None? ==> b'.giver.None? || b.delivered == [])
    ensures Received(b', c, got)
  {}

  /** Collectors keep what they received, new ones have nothing, and jobs keep what was received of them. */
  ghost predicate SameReceived(s: Sys, s': Sys) {
    && |s.jobs| <= |s'.jobs| && |s.collectors| <= |s'.collectors|
    && (forall c :: 0 <= c < |s.collectors| ==>
         s'.collectors[c].job == s.collectors[c].job && s'.collectors[c].got == s.collectors[c].got)
    && (forall c :: |s.collectors| <= c < |s'.collectors| ==>
         s'.collectors[c].job < |s'.jobs| && s'.collectors[c].got.None?)
    && (forall j :: 0 <= j < |s.jobs| ==>
         s'.jobs[j].delivered == s.jobs[j].delivered && s'.jobs[j].giver == s.jobs[j].giver)
    && (forall j :: |s.jobs| <= j < |s'.jobs| ==> s'.jobs[j].giver.None?)
  }

  lemma SameServed(s: Sys, s': Sys)
    requires Served(s) && SameReceived(s, s') && AllEvolve(s, s')
    ensures Served(s')
  {
    hide Received, Evolves;
    forall c | 0 <= c < |s'.collectors|
      ensures s'.collectors[c].job < |s'.jobs| && Received(s'.jobs[s'.collectors[c].job], c, s'.collectors[c].got)
    {
      if c < |s.collectors| {
        var j := s.collectors[c].job;
        assert Evolves(s.jobs[j], s'.jobs[j]);
        ReceivedLater(s.jobs[j], s'.jobs[j], c, s.collectors[c].got);
      } else {
        NothingReceived(s'.jobs[s'.collectors[c].job], c);
      }
    }
    forall j | 0 <= j < |s'.jobs| ensures Given(s', s'.jobs[j], j) {
      if j < |s.jobs| {
        assert Given(s, s.jobs[j], j);
      }
    }
  }

  lemma NothingReceived(b: Job, c: nat)
    ensures Received(b, c, None)
  {}

  lemma CallReceives(ops: Ops, s: Sys, a: Step)
    requires CallEnabled(s, a)
    ensures SameReceived(s, CallStep(ops, s, a))
  {
    hide CallStep, CallEnabled;
    CallShaped(ops, s, a);
  }

  lemma TableReceives(s: Sys, a: Step)
    requires TableEnabled(s, a) && !a.Take?
    ensures SameReceived(s, TableStep(s, a))
  {
    hide PastDecodeCheck;
  }

  lemma TakeServed(ops: Ops, s: Sys, c: nat)
    requires Lawful(ops, s) && Served(s) && TableEnabled(s, Take(c)) && AllEvolve(s, TakeStep(s, c))
    ensures Served(TakeStep(s, c))
  {
    hide Lawful, Received, Evolves, Taken, Outcome, Inlined, Script, Scripted;
    var s', j := TakeStep(s, c), s.collectors[c].job;
    var b, b' := s.jobs[j], s'.jobs[j];
    JobAt(ops, s, j);
    assert Given(s, b, j);
    TakenReceived(b, c);
    forall d | 0 <= d < |s'.collectors|
      ensures s'.collectors[d].job < |s'.jobs| && Received(s'.jobs[s'.collectors[d].job], d, s'.collectors[d].got)
    {
      if d != c {
        var m := s.collectors[d].job;
        assert Evolves(s.jobs[m], s'.jobs[m]);
        ReceivedLater(s.jobs[m], s'.jobs[m], d, s.collectors[d].got);
      }
    }
    forall m | 0 <= m < |s'.jobs| ensures Given(s', s'.jobs[m], m) {
      assert Given(s, s.jobs[m], m);
    }
  }

  /** The collector that takes an outcome, of a job whose values nobody else got through it. */
  lemma TakenReceived(b: Job, c: nat)
    requires b.record.Terminal() && b.giver != Some(c)
    requires b.record.Completed? && b.record.values.Some? ==> b.delivered == []
    requires b.record == Completed(None) ==> b.delivered != []
    ensures Received(Taken(b, c), c, Some(Outcome(b)))
    ensures b.record.Completed? && b.record.values.Some? ==>
      Taken(b, c).giver == Some(c) && Taken(b, c).delivered == [b.record.values.value]
      && Outcome(b) == Ok(b.record.values.value)
    ensures !(b.record.Completed? && b.record.values.Some?) ==>
      Taken(b, c).giver == b.giver && Taken(b, c).delivered == b.delivered
  {}

  lemma StepServed(ops: Ops, s: Sys, a: Step)
    requires Lawful(ops, s) && VersionSafety.Versioned(s) && Served(s) && Enabled(s, a)
    ensures Served(Do(ops, s, a))
  {
    hide Lawful, VersionSafety.Versioned, Served, SameReceived, AllEvolve, VersionEnabled, PlannerEnabled, CallEnabled;
    hide TableEnabled, CallStep, TableStep, VersionStep, PlannerStep;
    StepEvolves(ops, s, a);
    if IsCallStep(a) {
      CallReceives(ops, s, a);
    } else if a.Take? {
      TakeIs(s, a.c);
      TakeServed(ops, s, a.c);
      return;
    } else if IsTableStep(a) {
      TableReceives(s, a);
    } else if IsVersionStep(a) {
      VersionTouches(s, a);
      UntouchedReceives(s, Do(ops, s, a));
    } else {
      PlannerTouches(s, a);
      UntouchedReceives(s, Do(ops, s, a));
    }
    SameServed(s, Do(ops, s, a));
  }

  lemma TakeIs(s: Sys, c: nat)
    requires TableEnabled(s, Take(c))
    ensures TableStep(s, Take(c)) == TakeStep(s, c)
  {}

  lemma UntouchedReceives(s: Sys, s': Sys)
    requires s'.jobs == s.jobs && s'.collectors == s.collectors
    ensures SameReceived(s, s')
  {}

  lemma {:induction false} RunServed(ops: Ops, first: Version, planner: State, steps: seq<Step>)
    requires CompilesTo(planner, first.plan, first.stages) && Run(ops, Created(first, planner), steps).Some?
    ensures Served(Run(ops, Created(first, planner), steps).value)
  {
    hide Enabled, Do, Served, CompilesTo, VersionSafety.Versioned, Lawful;
    if steps == [] {
      NobodyServed(first, planner);
    } else {
      var init := steps[..|steps| - 1];
      RunServed(ops, first, planner, init);
      StackSafe(ops, first, planner, init);
      StepServed(ops, Run(ops, Created(first, planner), init).value, steps[|steps| - 1]);
    }
  }

  lemma NobodyServed(first: Version, planner: State)
    ensures Served(Created(first, planner))
  {}

  /** What a collect call on job b may receive. */
  ghost predicate OwnOutcome(ops: Ops, v: Version, b: Job, sent: seq<ChunkQuery>, c: nat, got: Result<Values>)
    requires AllValid(sent)
  {
    match got
    case Ok(values) =>
      if b.giver == Some(c) then Executed(ops, v.plan, v.stages, sent, b.start) == Ok(values)
      else values == [] && b.giver.Some?
    case Err(e) =>
      || (b.record.CancelledRecord? && e == Cancelled && b.cancel)
      || (b.record.Failed? && (e == Message || e in b.reported))
  }

  /**
   * Over every run from creation: the c-th collect call receives the outcome of the job it was called with, the one
   * the dispatch of that number started. The values are those of inline execution on that dispatch's batch, for
   * exactly one call; a later one finds none. An undisturbed job's errors are those of inline execution too.
   */
  lemma CollectsOwn(ops: Ops, first: Version, planner: State, steps: seq<Step>, c: nat)
    requires CompilesTo(planner, first.plan, first.stages) && Run(ops, Created(first, planner), steps).Some?
    requires c < |Asked(steps)|
    ensures var s, j := Run(ops, Created(first, planner), steps).value, Asked(steps)[c];
      && c < |s.collectors| && s.collectors[c].job == j < |Sent(steps)| == |s.jobs|
      && s.jobs[j].queries == Sent(steps)[j] && AllValid(Sent(steps)[j]) && s.jobs[j].version < |s.versions|
      && (s.collectors[c].got.Some? ==>
           OwnOutcome(ops, VersionAt(s, j), s.jobs[j], Sent(steps)[j], c, s.collectors[c].got.value))
      && (Quiet(s.jobs[j]) ==> forall e :: e in s.jobs[j].reported ==>
           Executed(ops, VersionAt(s, j).plan, VersionAt(s, j).stages, Sent(steps)[j], s.jobs[j].start) == Err(e))
  {
    hide Run, Lawful, CompilesTo, VersionSafety.Versioned, Executed, Script, Scripted;
    RunHandles(ops, first, planner, steps);
    RunServed(ops, first, planner, steps);
    StackSafe(ops, first, planner, steps);
    var s, j := Run(ops, Created(first, planner), steps).value, Asked(steps)[c];
    JobAt(ops, s, j);
    assert Given(s, s.jobs[j], j);
    assert Received(s.jobs[j], c, s.collectors[c].got);
  }

  /** A job stays on the version that was current when its dispatch captured it, whatever is swapped in later. */
  lemma CapturedVersion(
    ops: Ops, first: Version, planner: State, before: seq<Step>, queries: seq<ChunkQuery>, s: Sys, after: seq<Step>)
    requires CompilesTo(planner, first.plan, first.stages)
    requires Run(ops, Created(first, planner), before) == Some(s) && Enabled(s, Dispatch(queries))
    requires Run(ops, Do(ops, s, Dispatch(queries)), after).Some?
    ensures var end := Run(ops, Do(ops, s, Dispatch(queries)), after).value;
      && |s.jobs| < |end.jobs| && end.jobs[|s.jobs|].version == s.current && end.jobs[|s.jobs|].queries == queries
  {
    hide Run, Enabled, Do, Lawful, CompilesTo, VersionSafety.Versioned;
    StackSafe(ops, first, planner, before);
    DispatchStarts(ops, s, queries);
    StepLawful(ops, s, Dispatch(queries));
    VersionSafety.StepVersioned(ops, s, Dispatch(queries));
    RunEvolves(ops, Do(ops, s, Dispatch(queries)), after);
  }
}
