/** What the lane counts a backend is registered with mean for its callers, over every run. */
module LaneGrants {
  import opened LaneQueue
  import opened Lanes

  /** At least one lane. */
  function LaneCap(laneCount: nat): nat {
    if laneCount >= 1 then laneCount else 1
  }

  /** At least one prepare lane, and no more than there are lanes. */
  function PrepareCap(laneCount: nat, prepareLaneCount: nat): nat {
    if prepareLaneCount < 1 then 1
    else if prepareLaneCount > LaneCap(laneCount) then LaneCap(laneCount)
    else prepareLaneCount
  }

  /** Lanes held by live calls and permits, or with tasks in the executor queue. */
  function LanesLive(s: State): nat {
    HeldAll(s.threads).lanes + |s.queue|
  }

  function PermitsLive(s: State): nat {
    HeldAll(s.threads).permits
  }

  lemma StepKeepsCounts(s: State, step: Step)
    requires Enabled(s, step)
    ensures Do(s, step).q.laneCount == s.q.laneCount && Do(s, step).q.prepareLaneCount == s.q.prepareLaneCount
  {}

  lemma {:induction false} CountsKept(laneCount: nat, prepareLaneCount: nat, threadCount: nat, steps: seq<Step>)
    requires Run(Init(laneCount, prepareLaneCount, threadCount), steps).Some?
    ensures var s := Run(Init(laneCount, prepareLaneCount, threadCount), steps).value;
      s.q.laneCount == LaneCap(laneCount) && s.q.prepareLaneCount == PrepareCap(laneCount, prepareLaneCount)
  {
    hide Enabled, Do;
    if steps != [] {
      var init := steps[..|steps| - 1];
      CountsKept(laneCount, prepareLaneCount, threadCount, init);
      StepKeepsCounts(Run(Init(laneCount, prepareLaneCount, threadCount), init).value, steps[|steps| - 1]);
    }
  }

  lemma LiveCounted(s: State)
    requires Sound(s)
    ensures s.q.lanesInUse == LanesLive(s) && s.q.preparesInUse == PermitsLive(s)
  {
    hide Placed, InOrder, HeldAll;
  }

  /** A scheduled task gets a lane at once exactly when fewer lanes are live than were registered. */
  lemma ScheduleGranted(
    laneCount: nat, prepareLaneCount: nat, threadCount: nat, steps: seq<Step>, i: nat)
    requires Run(Init(laneCount, prepareLaneCount, threadCount), steps).Some?
    requires Enabled(Run(Init(laneCount, prepareLaneCount, threadCount), steps).value, Step(i, Schedule))
    ensures var s := Run(Init(laneCount, prepareLaneCount, threadCount), steps).value;
      var s' := Do(s, Step(i, Schedule));
      if LanesLive(s) < LaneCap(laneCount)
      then s'.granted == s.granted + [s.next] && s'.q.waiting == s.q.waiting
        && s'.threads == s.threads[i := s.threads[i] + [Submitting(s.next, false)]]
      else s'.granted == s.granted && s'.q.waiting == s.q.waiting + [s.next] && s'.threads == s.threads
  {
    hide Run, Sound, Awake, HeldAll;
    Safety(laneCount, prepareLaneCount, threadCount, steps);
    CountsKept(laneCount, prepareLaneCount, threadCount, steps);
    LiveCounted(Run(Init(laneCount, prepareLaneCount, threadCount), steps).value);
  }

  /**
   * An acquire that has read the flag clear gets its permit exactly when nothing waits, fewer lanes are live than
   * were registered, and fewer permits than prepare lanes; otherwise it goes to sleep.
   */
  lemma PermitGranted(
    laneCount: nat, prepareLaneCount: nat, threadCount: nat, steps: seq<Step>, i: nat)
    requires Run(Init(laneCount, prepareLaneCount, threadCount), steps).Some?
    requires Enabled(Run(Init(laneCount, prepareLaneCount, threadCount), steps).value, Step(i, Decide))
    ensures var s := Run(Init(laneCount, prepareLaneCount, threadCount), steps).value;
      var free := s.q.waiting == [] && LanesLive(s) < LaneCap(laneCount)
        && PermitsLive(s) < PrepareCap(laneCount, prepareLaneCount);
      var s' := Do(s, Step(i, Decide));
      && !s'.lock && s'.threads == s.threads[i := Below(s.threads[i]) + [if free then Permitted else Blocked]]
      && s'.q.lanesInUse == s.q.lanesInUse + (if free then 1 else 0)
      && s'.q.preparesInUse == s.q.preparesInUse + (if free then 1 else 0)
  {
    hide Run, Sound, Awake, HeldAll;
    Safety(laneCount, prepareLaneCount, threadCount, steps);
    CountsKept(laneCount, prepareLaneCount, threadCount, steps);
    LiveCounted(Run(Init(laneCount, prepareLaneCount, threadCount), steps).value);
  }

  // ---------------------------------------------------------------- the executor queue

  lemma QueueStep(s: State, step: Step)
    requires Enabled(s, step)
    ensures s.ran + s.queue <= Do(s, step).ran + Do(s, step).queue
  {
    if step.action.Work? {
      assert s.ran + s.queue == s.ran + [s.queue[0]] + s.queue[1..];
    } else if step.action.Push? {
      assert s.ran + s.queue + [TopOf(s, step.thread).task] == s.ran + (s.queue + [TopOf(s, step.thread).task]);
    }
  }

  /** Workers take tasks in the order they were pushed: over any run the tasks run, then those queued, only grow. */
  lemma {:induction false} RunInOrder(s: State, steps: seq<Step>)
    requires Run(s, steps).Some?
    ensures s.ran + s.queue <= Run(s, steps).value.ran + Run(s, steps).value.queue
  {
    hide Enabled, Do;
    if steps != [] {
      var init := steps[..|steps| - 1];
      RunInOrder(s, init);
      QueueStep(Run(s, init).value, steps[|steps| - 1]);
    }
  }

  // ---------------------------------------------------------------- after shutdown

  /** The task's flag test has found the flag clear. */
  ghost predicate Passed(s: State, t: Task) {
    t in s.ran || t in s.queue || exists i :: 0 <= i < |s.threads| && Pushing(t) in s.threads[i]
  }

  lemma LateStep(s: State, step: Step, t: Task)
    requires Enabled(s, step) && s.shutdown && !Passed(s, t)
    ensures Do(s, step).shutdown && !Passed(Do(s, step), t)
  {
    var s', i := Do(s, step), step.thread;
    forall j | 0 <= j < |s'.threads| ensures Pushing(t) !in s'.threads[j] {
      assert Pushing(t) !in s.threads[j];
      if step.action.NotifyAll? {
        assert s'.threads[j] == Woken(Return(s, i).threads[j]);
      }
    }
    if step.action.Push? {
      assert TopOf(s, i) in s.threads[i];
    }
  }

  /** Once the flag is set, a task that has not passed its flag test is never run, whatever happens. */
  lemma {:induction false} LateNeverRuns(s: State, steps: seq<Step>, t: Task)
    requires s.shutdown && !Passed(s, t) && Run(s, steps).Some?
    ensures Run(s, steps).value.shutdown && !Passed(Run(s, steps).value, t) && t !in Run(s, steps).value.ran
  {
    hide Enabled, Do;
    if steps != [] {
      var init := steps[..|steps| - 1];
      LateNeverRuns(s, init, t);
      LateStep(Run(s, init).value, steps[|steps| - 1], t);
    }
  }

  /** No acquire has read the flag clear and still to decide. */
  ghost predicate NoDecider(s: State) {
    forall i :: 0 <= i < |s.threads| ==> Deciding !in s.threads[i]
  }

  lemma LatePermitStep(s: State, step: Step)
    requires Enabled(s, step) && s.shutdown && NoDecider(s)
    ensures var s' := Do(s, step); s'.shutdown && NoDecider(s') && s'.q.preparesInUse <= s.q.preparesInUse
  {
    var s', i := Do(s, step), step.thread;
    forall j | 0 <= j < |s'.threads| ensures Deciding !in s'.threads[j] {
      assert Deciding !in s.threads[j];
      if step.action.NotifyAll? {
        assert s'.threads[j] == Woken(Return(s, i).threads[j]);
      }
    }
  }

  /** Once the flag is set and no acquire is left between flag and decision, permits are only given back. */
  lemma {:induction false} LatePermits(s: State, steps: seq<Step>)
    requires s.shutdown && NoDecider(s) && Run(s, steps).Some?
    ensures var s' := Run(s, steps).value;
      s'.shutdown && NoDecider(s') && s'.q.preparesInUse <= s.q.preparesInUse
  {
    hide Enabled, Do, NoDecider;
    if steps != [] {
      var init := steps[..|steps| - 1];
      LatePermits(s, init);
      LatePermitStep(Run(s, init).value, steps[|steps| - 1]);
    }
  }
}
