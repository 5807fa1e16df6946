/**
 * The lane scheduler under every interleaving. Threads are call stacks; each step is one section under a
 * lock, one flag access or one notification. Stage tasks may schedule further tasks while they hold a lane.
 */
module Lanes {
  import opened Common
  import opened LaneQueue

  datatype Frame =
    | Running(task: Task)                  // the task's function is executing; its lane is held
    | Rejecting(task: Task)                // the task's reject callback is executing; its lane is held
    | Finishing                            // finish_lane, before the lock
    | Submitting(task: Task, owes: bool)   // submit_ready, before the flag test; owes a notify on failure
    | Pushing(task: Task)                  // the flag was clear; before the executor queue's lock
    | Notifying                            // owes prepare_wake.notify_all
    | Acquiring                            // acquire_prepare, wanting the state lock
    | Deciding                             // holds the state lock and has read the flag clear
    | Blocked                              // waits on prepare_wake
    | Permitted                            // holds a prepare permit
    | Releasing                            // finish_prepare, before the lock
    | Draining                             // shutdown, before the lock; owes a notify
    | Discarding(tasks: seq<Task>)         // rejecting drained tasks, which hold no lane

  /** Innermost call last. */
  type Stack = seq<Frame>

  datatype State = State(
    q: Queue,
    threads: seq<Stack>,
    lock: bool,            // some thread is inside acquire_prepare's section
    shutdown: bool,
    queue: seq<Task>,      // wrapped tasks in the executor queue
    next: Task,            // scheduled so far
    granted: seq<Task>,    // in the order lanes were given out
    ran: seq<Task>,
    rejected: seq<Task>)

  function Init(laneCount: nat, prepareLaneCount: nat, threadCount: nat): State {
    State(NewQueue(laneCount, prepareLaneCount), seq(threadCount, _ => []), false, false, [], 0, [], [], [])
  }

  datatype Action =
    | Schedule | SubmitTest | Push | Work | TaskDone | FinishLane | NotifyAll
    | Acquire | AcquireLock | Decide | PrepareDone | FinishPrepare | Shutdown | Drain | Discard | SpuriousWake

  datatype Step = Step(thread: nat, action: Action)

  function Below(stack: Stack): Stack {
    if stack == [] then [] else stack[..|stack| - 1]
  }

  /** Thread i is in a call; its innermost frame is TopOf. */
  predicate Busy(s: State, i: nat) {
    i < |s.threads| && s.threads[i] != []
  }

  function TopOf(s: State, i: nat): Frame
    requires Busy(s, i)
  {
    s.threads[i][|s.threads[i]| - 1]
  }

  predicate Idle(s: State, i: nat) {
    i < |s.threads| && s.threads[i] == []
  }

  /** Threads may call in from outside or from a running task. */
  predicate MayCall(s: State, i: nat) {
    Idle(s, i) || (Busy(s, i) && TopOf(s, i).Running?)
  }

  function Put(s: State, i: nat, stack: Stack): (r: State)
    requires i < |s.threads|
    ensures r == s.(threads := r.threads)
  {
    s.(threads := s.threads[i := stack])
  }

  function PushFrame(s: State, i: nat, frame: Frame): (r: State)
    requires i < |s.threads|
    ensures r == s.(threads := r.threads)
  {
    Put(s, i, s.threads[i] + [frame])
  }

  function Return(s: State, i: nat): (r: State)
    requires Busy(s, i)
    ensures r == s.(threads := r.threads)
  {
    Put(s, i, Below(s.threads[i]))
  }

  function Become(s: State, i: nat, frame: Frame): (r: State)
    requires Busy(s, i)
    ensures r == s.(threads := r.threads)
  {
    Put(s, i, Below(s.threads[i]) + [frame])
  }

  /** f1 stays on the stack while f2 runs. */
  function BecomeTwo(s: State, i: nat, f1: Frame, f2: Frame): (r: State)
    requires Busy(s, i)
    ensures r == s.(threads := r.threads)
  {
    Put(s, i, Below(s.threads[i]) + [f1] + [f2])
  }

  /** schedule's locked section: take a lane and go on to submit_ready, or queue up. */
  function ScheduleStep(s: State, i: nat): State
    requires MayCall(s, i)
  {
    var t, r := s.next, Scheduled(s.q, s.next);
    var s' := s.(q := r.0, next := t + 1);
    if r.1 then PushFrame(s'.(granted := s.granted + [t]), i, Submitting(t, false)) else s'
  }

  /** submit_ready's flag test. */
  function SubmitStep(s: State, i: nat): State
    requires Busy(s, i) && TopOf(s, i).Submitting?
  {
    var t := TopOf(s, i).task;
    if !s.shutdown then Become(s, i, Pushing(t))
    else
      var s' := s.(rejected := s.rejected + [t]);
      if TopOf(s, i).owes then BecomeTwo(s', i, Notifying, Rejecting(t)) else Become(s', i, Rejecting(t))
  }

  function PushStep(s: State, i: nat): State
    requires Busy(s, i) && TopOf(s, i).Pushing?
  {
    Return(s.(queue := s.queue + [TopOf(s, i).task]), i)
  }

  /** A worker takes the oldest queued task. */
  function WorkStep(s: State, i: nat): State
    requires Idle(s, i) && s.queue != []
  {
    PushFrame(s.(queue := s.queue[1..], ran := s.ran + [s.queue[0]]), i, Running(s.queue[0]))
  }

  /** finish_lane's locked section. */
  function FinishLaneStep(s: State, i: nat): State
    requires Busy(s, i) && TopOf(s, i) == Finishing
  {
    var r := LaneFinished(s.q);
    match r.1
    case None => Become(s.(q := r.0), i, Notifying)
    case Some(t) => Become(s.(q := r.0, granted := s.granted + [t]), i, Submitting(t, true))
  }

  /** finish_prepare's locked section. */
  function FinishPrepareStep(s: State, i: nat): State
    requires Busy(s, i) && TopOf(s, i) == Releasing
  {
    var r := PrepareFinished(s.q);
    match r.1
    case None => Become(s.(q := r.0), i, Notifying)
    case Some(t) => BecomeTwo(s.(q := r.0, granted := s.granted + [t]), i, Notifying, Submitting(t, true))
  }

  function Woken(stack: Stack): Stack {
    if stack == [Blocked] then [Acquiring] else stack
  }

  function WakeAll(threads: seq<Stack>): (r: seq<Stack>)
    ensures |r| == |threads| && forall i :: 0 <= i < |r| ==> r[i] == Woken(threads[i])
  {
    seq(|threads|, i requires 0 <= i < |threads| => Woken(threads[i]))
  }

  function NotifyStep(s: State, i: nat): State
    requires Busy(s, i) && TopOf(s, i) == Notifying
  {
    s.(threads := WakeAll(Return(s, i).threads))
  }

  /** acquire_prepare locks the state and reads the flag; the lock stays held until Decide. */
  function AcquireLockStep(s: State, i: nat): State
    requires Busy(s, i) && TopOf(s, i) == Acquiring
  {
    if s.shutdown then Return(s, i) else Become(s.(lock := true), i, Deciding)
  }

  function DecideStep(s: State, i: nat): State
    requires Busy(s, i) && TopOf(s, i) == Deciding
  {
    if CanPrepare(s.q) then Become(s.(q := PrepareGranted(s.q), lock := false), i, Permitted)
    else Become(s.(lock := false), i, Blocked)
  }

  function ShutdownStep(s: State, i: nat): State
    requires MayCall(s, i)
  {
    if s.shutdown then s else PushFrame(s.(shutdown := true), i, Draining)
  }

  function DrainStep(s: State, i: nat): State
    requires Busy(s, i) && TopOf(s, i) == Draining
  {
    BecomeTwo(s.(q := Drained(s.q)), i, Notifying, Discarding(s.q.waiting))
  }

  /** One drained task is rejected. */
  function DiscardStep(s: State, i: nat): State
    requires Busy(s, i) && TopOf(s, i).Discarding?
  {
    var tasks := TopOf(s, i).tasks;
    if tasks == [] then Return(s, i)
    else Become(s.(rejected := s.rejected + [tasks[0]]), i, Discarding(tasks[1..]))
  }

  predicate Enabled(s: State, step: Step) {
    var i := step.thread;
    match step.action
    case Schedule => !s.lock && MayCall(s, i)
    case Shutdown => MayCall(s, i)
    case Acquire => Idle(s, i)
    case Work => Idle(s, i) && s.queue != []
    case SubmitTest => Busy(s, i) && TopOf(s, i).Submitting?
    case Push => Busy(s, i) && TopOf(s, i).Pushing?
    case TaskDone => Busy(s, i) && (TopOf(s, i).Running? || TopOf(s, i).Rejecting?)
    case FinishLane => !s.lock && Busy(s, i) && TopOf(s, i) == Finishing
    case NotifyAll => Busy(s, i) && TopOf(s, i) == Notifying
    case AcquireLock => !s.lock && Busy(s, i) && TopOf(s, i) == Acquiring
    case Decide => Busy(s, i) && TopOf(s, i) == Deciding
    case PrepareDone => Busy(s, i) && TopOf(s, i) == Permitted
    case FinishPrepare => !s.lock && Busy(s, i) && TopOf(s, i) == Releasing
    case Drain => !s.lock && Busy(s, i) && TopOf(s, i) == Draining
    case Discard => Busy(s, i) && TopOf(s, i).Discarding?
    case SpuriousWake => Busy(s, i) && TopOf(s, i) == Blocked
  }

  function Do(s: State, step: Step): State
    requires Enabled(s, step)
  {
    var i := step.thread;
    match step.action
    case Schedule => ScheduleStep(s, i)
    case Shutdown => ShutdownStep(s, i)
    case Acquire => PushFrame(s, i, Acquiring)
    case Work => WorkStep(s, i)
    case SubmitTest => SubmitStep(s, i)
    case Push => PushStep(s, i)
    case TaskDone => Become(s, i, Finishing)
    case FinishLane => FinishLaneStep(s, i)
    case NotifyAll => NotifyStep(s, i)
    case AcquireLock => AcquireLockStep(s, i)
    case Decide => DecideStep(s, i)
    case PrepareDone => Become(s, i, Releasing)
    case FinishPrepare => FinishPrepareStep(s, i)
    case Drain => DrainStep(s, i)
    case Discard => DiscardStep(s, i)
    case SpuriousWake => Become(s, i, Acquiring)
  }

  /** The state after a run; None when some step is not enabled where it happens. */
  function Run(s: State, steps: seq<Step>): Option<State> {
    if steps == [] then Some(s)
    else
      var before, step := Run(s, steps[..|steps| - 1]), steps[|steps| - 1];
      if before.Some? && Enabled(before.value, step) then Some(Do(before.value, step)) else None
  }

  // ---------------------------------------------------------------- what frames and threads hold

  datatype Held = Held(lanes: nat, permits: nat, tasks: multiset<Task>) {
    function Plus(other: Held): Held {
      Held(lanes + other.lanes, permits + other.permits, tasks + other.tasks)
    }
  }

  const NOTHING: Held := Held(0, 0, multiset{})

  /** A task counts where it still waits to be run or rejected. */
  function HeldBy(frame: Frame): Held {
    match frame
    case Running(_) => Held(1, 0, multiset{})
    case Rejecting(_) => Held(1, 0, multiset{})
    case Finishing => Held(1, 0, multiset{})
    case Submitting(t, _) => Held(1, 0, multiset{t})
    case Pushing(t) => Held(1, 0, multiset{t})
    case Permitted => Held(1, 1, multiset{})
    case Releasing => Held(1, 1, multiset{})
    case Discarding(ts) => Held(0, 0, multiset(ts))
    case _ => NOTHING
  }

  function HeldIn(stack: Stack): Held {
    if stack == [] then NOTHING else HeldIn(stack[..|stack| - 1]).Plus(HeldBy(stack[|stack| - 1]))
  }

  function HeldAll(threads: seq<Stack>): Held {
    if threads == [] then NOTHING else HeldAll(threads[..|threads| - 1]).Plus(HeldIn(threads[|threads| - 1]))
  }

  lemma HeldPush(stack: Stack, frame: Frame)
    ensures HeldIn(stack + [frame]) == HeldIn(stack).Plus(HeldBy(frame))
  {
    assert (stack + [frame])[..|stack|] == stack;
  }

  /** Exchanging one thread's stack exchanges what it holds. */
  lemma {:induction false} HeldPut(threads: seq<Stack>, i: nat, stack: Stack)
    requires i < |threads|
    ensures var was, now := HeldAll(threads), HeldAll(threads[i := stack]);
      && now.lanes == was.lanes + HeldIn(stack).lanes - HeldIn(threads[i]).lanes
      && now.permits == was.permits + HeldIn(stack).permits - HeldIn(threads[i]).permits
      && now.tasks + HeldIn(threads[i]).tasks == was.tasks + HeldIn(stack).tasks
    decreases |threads|
  {
    hide HeldIn;
    var n := |threads| - 1;
    if i < n {
      HeldPut(threads[..n], i, stack);
      assert threads[i := stack][..n] == threads[..n][i := stack];
      var a, b := HeldAll(threads[..n]).tasks, HeldAll(threads[..n][i := stack]).tasks;
      AddBoth(a, b, HeldIn(threads[n]).tasks, HeldIn(threads[i]).tasks, HeldIn(stack).tasks);
    } else {
      assert threads[i := stack][..n] == threads[..n];
      var rest, x, y := HeldAll(threads[..n]).tasks, HeldIn(threads[i]).tasks, HeldIn(stack).tasks;
      assert rest + y + x == rest + x + y;
    }
  }

  lemma AddBoth<T>(a: multiset<T>, b: multiset<T>, rest: multiset<T>, x: multiset<T>, y: multiset<T>)
    requires b + x == a + y
    ensures b + rest + x == a + rest + y
  {
    assert b + rest + x == (b + x) + rest;
    assert a + rest + y == (a + y) + rest;
  }

  lemma HeldAlone(frame: Frame)
    ensures HeldIn([frame]) == HeldBy(frame)
  {
    hide HeldBy;
    var none: Stack := [];
    HeldPush(none, frame);
    assert none + [frame] == [frame];
    assert multiset{} + HeldBy(frame).tasks == HeldBy(frame).tasks;
  }

  lemma WokenHeld(stack: Stack)
    ensures HeldIn(Woken(stack)) == HeldIn(stack)
  {
    hide HeldIn;
    HeldAlone(Blocked);
    HeldAlone(Acquiring);
  }

  lemma {:induction false} HeldWake(threads: seq<Stack>)
    ensures HeldAll(WakeAll(threads)) == HeldAll(threads)
  {
    hide HeldIn, Woken;
    if threads != [] {
      var n := |threads| - 1;
      HeldWake(threads[..n]);
      assert WakeAll(threads)[..n] == WakeAll(threads[..n]);
      WokenHeld(threads[n]);
    }
  }

  /** What one thread holds is part of what all hold. */
  lemma {:induction false} HeldPart(threads: seq<Stack>, i: nat)
    requires i < |threads|
    ensures HeldIn(threads[i]).lanes <= HeldAll(threads).lanes && HeldIn(threads[i]).permits <= HeldAll(threads).permits
    decreases |threads|
  {
    if i < |threads| - 1 {
      HeldPart(threads[..|threads| - 1], i);
    }
  }

  lemma {:induction false} PermitsHoldLanes(threads: seq<Stack>)
    ensures HeldAll(threads).permits <= HeldAll(threads).lanes
  {
    if threads != [] {
      PermitsHoldLanes(threads[..|threads| - 1]);
      StackPermitsHoldLanes(threads[|threads| - 1]);
    }
  }

  lemma {:induction false} StackPermitsHoldLanes(stack: Stack)
    ensures HeldIn(stack).permits <= HeldIn(stack).lanes
  {
    if stack != [] {
      StackPermitsHoldLanes(stack[..|stack| - 1]);
    }
  }

  lemma TopHeld(stack: Stack)
    requires stack != []
    ensures HeldIn(stack) == HeldIn(Below(stack)).Plus(HeldBy(stack[|stack| - 1]))
  {}

  /** Holdings change as one frame's holdings are given up and others taken. */
  ghost predicate Moved(was: Held, now: Held, gone: Held, come: Held) {
    && now.lanes + gone.lanes == was.lanes + come.lanes
    && now.permits + gone.permits == was.permits + come.permits
    && now.tasks + gone.tasks == was.tasks + come.tasks
  }

  lemma Cancel(a: multiset<Task>, b: multiset<Task>, base: multiset<Task>, x: multiset<Task>, y: multiset<Task>)
    requires a + (base + x) == b + (base + y)
    ensures a + x == b + y
  {
    assert forall t :: (a + x)[t] + base[t] == (a + (base + x))[t];
    assert forall t :: (b + y)[t] + base[t] == (b + (base + y))[t];
  }

  lemma PushMoves(s: State, i: nat, frame: Frame)
    requires i < |s.threads|
    ensures Moved(HeldAll(s.threads), HeldAll(PushFrame(s, i, frame).threads), NOTHING, HeldBy(frame))
  {
    hide HeldIn, HeldAll, HeldBy;
    HeldPush(s.threads[i], frame);
    HeldPut(s.threads, i, s.threads[i] + [frame]);
    var was, now := HeldAll(s.threads).tasks, HeldAll(PushFrame(s, i, frame).threads).tasks;
    assert HeldIn(s.threads[i]).tasks + multiset{} == HeldIn(s.threads[i]).tasks;
    Cancel(now, was, HeldIn(s.threads[i]).tasks, multiset{}, HeldBy(frame).tasks);
  }

  lemma ReturnMoves(s: State, i: nat)
    requires Busy(s, i)
    ensures Moved(HeldAll(s.threads), HeldAll(Return(s, i).threads), HeldBy(TopOf(s, i)), NOTHING)
  {
    hide HeldIn, HeldAll, HeldBy, Below;
    TopHeld(s.threads[i]);
    HeldPut(s.threads, i, Below(s.threads[i]));
    var base, top := HeldIn(Below(s.threads[i])).tasks, HeldBy(TopOf(s, i)).tasks;
    assert base + multiset{} == base;
    Cancel(HeldAll(Return(s, i).threads).tasks, HeldAll(s.threads).tasks, base, top, multiset{});
  }

  lemma MovedTwice(a: Held, b: Held, c: Held, gone: Held, come1: Held, come2: Held)
    requires Moved(a, b, gone, come1) && Moved(b, c, NOTHING, come2)
    ensures Moved(a, c, gone, come1.Plus(come2))
  {
    assert c.tasks + multiset{} == c.tasks;
    assert c.tasks + gone.tasks == (b.tasks + gone.tasks) + come2.tasks;
    assert (a.tasks + come1.tasks) + come2.tasks == a.tasks + (come1.tasks + come2.tasks);
  }

  lemma BecomeMoves(s: State, i: nat, frame: Frame)
    requires Busy(s, i)
    ensures Moved(HeldAll(s.threads), HeldAll(Become(s, i, frame).threads), HeldBy(TopOf(s, i)), HeldBy(frame))
  {
    hide HeldIn, HeldAll, HeldBy, Moved, Below;
    ReturnMoves(s, i);
    PushMoves(Return(s, i), i, frame);
    assert PushFrame(Return(s, i), i, frame) == Become(s, i, frame);
    MovedTwice(HeldAll(s.threads), HeldAll(Return(s, i).threads), HeldAll(Become(s, i, frame).threads),
               HeldBy(TopOf(s, i)),
               NOTHING, HeldBy(frame));
    NothingPlus(HeldBy(frame));
  }

  lemma BecomeTwoMoves(s: State, i: nat, f1: Frame, f2: Frame)
    requires Busy(s, i)
    ensures Moved(HeldAll(s.threads), HeldAll(BecomeTwo(s, i, f1, f2).threads), HeldBy(TopOf(s, i)),
                  HeldBy(f1).Plus(HeldBy(f2)))
  {
    hide HeldIn, HeldAll, HeldBy, Moved, Below;
    BecomeMoves(s, i, f1);
    PushMoves(Become(s, i, f1), i, f2);
    assert PushFrame(Become(s, i, f1), i, f2) == BecomeTwo(s, i, f1, f2);
    MovedTwice(HeldAll(s.threads), HeldAll(Become(s, i, f1).threads), HeldAll(BecomeTwo(s, i, f1, f2).threads),
               HeldBy(TopOf(s, i)),
               HeldBy(f1), HeldBy(f2));
  }

  lemma NothingPlus(h: Held)
    ensures NOTHING.Plus(h) == h
  {
    assert multiset{} + h.tasks == h.tasks;
  }

  /** A frame that goes on under a pending notification. */
  lemma OwingMoves(s: State, i: nat, frame: Frame)
    requires Busy(s, i)
    ensures Moved(HeldAll(s.threads), HeldAll(BecomeTwo(s, i, Notifying, frame).threads), HeldBy(TopOf(s, i)),
                  HeldBy(frame))
  {
    hide HeldAll, Moved, BecomeTwo, HeldBy;
    BecomeTwoMoves(s, i, Notifying, frame);
    NotifyingHolds();
    NothingPlus(HeldBy(frame));
  }

  lemma NotifyingHolds()
    ensures HeldBy(Notifying) == NOTHING
  {}

  // ---------------------------------------------------------------- accounting, conservation, places and order

  /**
   * lanes_in_use is the tasks handed off, queued or running plus the live permits, prepares_in_use is the
   * live permits, both within their counts; waiting work means that every lane is taken.
   */
  ghost predicate Accounted(s: State) {
    && 1 <= s.q.prepareLaneCount <= s.q.laneCount
    && s.q.lanesInUse == HeldAll(s.threads).lanes + |s.queue|
    && s.q.preparesInUse == HeldAll(s.threads).permits
    && s.q.lanesInUse <= s.q.laneCount
    && s.q.preparesInUse <= s.q.prepareLaneCount
    && (s.q.waiting != [] ==> s.q.lanesInUse == s.q.laneCount)
  }

  function Ids(n: nat): (ids: multiset<Task>)
    ensures forall t: Task :: ids[t] == if t < n then 1 else 0
  {
    if n == 0 then multiset{} else Ids(n - 1) + multiset{n - 1}
  }

  /** Tasks outside any thread: waiting, queued, or done with. */
  function Outside(s: State): multiset<Task> {
    multiset(s.q.waiting) + multiset(s.queue) + multiset(s.ran) + multiset(s.rejected)
  }

  /** Every scheduled task is in exactly one place: waiting, handed over, queued, run or rejected. */
  ghost predicate Placed(s: State) {
    Outside(s) + HeldAll(s.threads).tasks == Ids(s.next)
  }

  predicate Increasing(tasks: seq<Task>, bound: nat) {
    && (forall i, j :: 0 <= i < j < |tasks| ==> tasks[i] < tasks[j])
    && (forall i :: 0 <= i < |tasks| ==> tasks[i] < bound)
  }

  /** Lanes were granted in schedule order, and the waiters come next, in schedule order. */
  predicate InOrder(s: State) {
    Increasing(s.granted + s.q.waiting, s.next)
  }

  ghost predicate Sound(s: State) {
    Accounted(s) && Placed(s) && InOrder(s)
  }

  /** The multiset side of a step: what leaves the threads arrives outside, and the other way round. */
  lemma PlacedAfter(s: State, s': State, gone: Held, come: Held)
    requires Placed(s) && Moved(HeldAll(s.threads), HeldAll(s'.threads), gone, come) && s'.next == s.next
    requires Outside(s') + come.tasks == Outside(s) + gone.tasks
    ensures Placed(s')
  {
    hide HeldAll, Outside;
    var was, now := HeldAll(s.threads).tasks, HeldAll(s'.threads).tasks;
    forall t: Task ensures (Outside(s') + now)[t] == (Outside(s) + was)[t] {
      assert (now + gone.tasks)[t] == (was + come.tasks)[t];
      assert (Outside(s') + come.tasks)[t] == (Outside(s) + gone.tasks)[t];
    }
    assert Outside(s') + now == Outside(s) + was;
  }

  /** The counting side of a step. */
  lemma AccountedAfter(s: State, s': State, gone: Held, come: Held)
    requires Accounted(s) && Moved(HeldAll(s.threads), HeldAll(s'.threads), gone, come)
    requires s'.q.laneCount == s.q.laneCount && s'.q.prepareLaneCount == s.q.prepareLaneCount
    requires s'.q.lanesInUse + gone.lanes + |s.queue| == s.q.lanesInUse + come.lanes + |s'.queue|
    requires s'.q.preparesInUse + gone.permits == s.q.preparesInUse + come.permits
    requires s'.q.lanesInUse <= s.q.laneCount && s'.q.preparesInUse <= s.q.prepareLaneCount
    requires s'.q.waiting != [] ==> s'.q.lanesInUse == s.q.laneCount
    ensures Accounted(s')
  {
    hide HeldAll;
  }

  lemma Settled(s: State, s': State)
    requires s'.granted == s.granted && s'.q.waiting == s.q.waiting && s'.next == s.next
    requires InOrder(s)
    ensures InOrder(s')
  {}

  lemma HeadTail(w: seq<Task>)
    requires w != []
    ensures multiset(w) == multiset{w[0]} + multiset(w[1..])
  {
    assert w == [w[0]] + w[1..];
  }

  lemma OutsideRejected(s: State, s': State, t: Task)
    requires s'.q.waiting == s.q.waiting && s'.queue == s.queue && s'.ran == s.ran && s'.rejected == s.rejected + [t]
    ensures Outside(s') == Outside(s) + multiset{t}
  {}

  lemma OutsideWaiting(s: State, s': State, t: Task)
    requires s'.q.waiting == s.q.waiting + [t] && s'.queue == s.queue && s'.ran == s.ran && s'.rejected == s.rejected
    ensures Outside(s') == Outside(s) + multiset{t}
  {}

  lemma OutsideHanded(s: State, s': State)
    requires s.q.waiting != [] && s'.q.waiting == s.q.waiting[1..]
    requires s'.queue == s.queue && s'.ran == s.ran && s'.rejected == s.rejected
    ensures Outside(s') + multiset{s.q.waiting[0]} == Outside(s)
  {
    HeadTail(s.q.waiting);
  }

  lemma OutsideDrained(s: State, s': State)
    requires s'.q.waiting == [] && s'.queue == s.queue && s'.ran == s.ran && s'.rejected == s.rejected
    ensures Outside(s') + multiset(s.q.waiting) == Outside(s)
  {}

  lemma OutsideSame(s: State, s': State)
    requires s'.q.waiting == s.q.waiting && s'.queue == s.queue && s'.ran == s.ran && s'.rejected == s.rejected
    ensures Outside(s') == Outside(s)
  {}

  lemma AddEmpty(m: multiset<Task>)
    ensures m + multiset{} == m
  {}

  /** A call that only moves between frames holding the same. */
  lemma FrameSound(s: State, i: nat, frame: Frame)
    requires Sound(s) && Busy(s, i) && HeldBy(frame) == HeldBy(TopOf(s, i))
    ensures Sound(Become(s, i, frame))
  {
    hide HeldAll, HeldBy;
    BecomeMoves(s, i, frame);
    PlacedAfter(s, Become(s, i, frame), HeldBy(frame), HeldBy(frame));
  }

  lemma ScheduleSound(s: State, i: nat)
    requires Sound(s) && MayCall(s, i)
    ensures Sound(ScheduleStep(s, i))
  {
    hide HeldAll, Placed;
    var s' := ScheduleStep(s, i);
    PushMoves(s, i, Submitting(s.next, false));
    assert s'.granted + s'.q.waiting == s.granted + s.q.waiting + [s.next];
    assert Placed(s') by { SchedulePlaced(s, i); }
  }

  lemma SchedulePlaced(s: State, i: nat)
    requires Sound(s) && MayCall(s, i)
    ensures Placed(ScheduleStep(s, i))
  {
    hide HeldAll, Accounted, InOrder, Outside;
    var s', t := ScheduleStep(s, i), s.next;
    PushMoves(s, i, Submitting(t, false));
    assert Ids(t + 1) == Ids(t) + multiset{t};
    var held := HeldAll(s.threads).tasks;
    assert Outside(s) + held + multiset{t} == Outside(s) + multiset{t} + held;
    if s'.granted == s.granted {
      OutsideWaiting(s, s', t);
    } else {
      OutsideSame(s, s');
      AddEmpty(HeldAll(s'.threads).tasks);
    }
  }

  lemma SubmitSound(s: State, i: nat)
    requires Sound(s) && Busy(s, i) && TopOf(s, i).Submitting?
    ensures Sound(SubmitStep(s, i))
  {
    if s.shutdown {
      RejectSound(s, i);
    } else {
      FrameSound(s, i, Pushing(TopOf(s, i).task));
    }
  }

  lemma RejectSound(s: State, i: nat)
    requires Sound(s) && Busy(s, i) && TopOf(s, i).Submitting? && s.shutdown
    ensures Sound(SubmitStep(s, i))
  {
    hide HeldAll, Placed, InOrder, Outside, Moved, Put, Become, BecomeTwo, Return;
    var t := TopOf(s, i).task;
    var s', mid := SubmitStep(s, i), s.(rejected := s.rejected + [t]);
    if TopOf(s, i).owes {
      OwingMoves(mid, i, Rejecting(t));
    } else {
      BecomeMoves(mid, i, Rejecting(t));
    }
    OutsideRejected(s, s', t);
    AddEmpty(Outside(s'));
    PlacedAfter(s, s', HeldBy(TopOf(s, i)), HeldBy(Rejecting(t)));
    AccountedAfter(s, s', HeldBy(TopOf(s, i)), HeldBy(Rejecting(t)));
    Settled(s, s');
  }

  lemma PushSound(s: State, i: nat)
    requires Sound(s) && Busy(s, i) && TopOf(s, i).Pushing?
    ensures Sound(PushStep(s, i))
  {
    hide HeldAll;
    ReturnMoves(s.(queue := s.queue + [TopOf(s, i).task]), i);
    PlacedAfter(s, PushStep(s, i), HeldBy(TopOf(s, i)), NOTHING);
  }

  lemma WorkSound(s: State, i: nat)
    requires Sound(s) && Idle(s, i) && s.queue != []
    ensures Sound(WorkStep(s, i))
  {
    hide HeldAll;
    HeadTail(s.queue);
    PushMoves(s, i, Running(s.queue[0]));
    PlacedAfter(s, WorkStep(s, i), NOTHING, HeldBy(Running(s.queue[0])));
  }

  lemma HandOver(s: State, s': State)
    requires InOrder(s) && s.q.waiting != [] && s'.granted == s.granted + [s.q.waiting[0]]
    requires s'.q.waiting == s.q.waiting[1..] && s'.next == s.next
    ensures InOrder(s')
  {
    assert s'.granted + s'.q.waiting == s.granted + s.q.waiting;
  }

  /** The frame about to finish holds a lane, and a permit when it is a prepare: no subtraction saturates. */
  lemma NeverSaturates(s: State, i: nat)
    requires Accounted(s) && Busy(s, i)
    ensures HeldBy(TopOf(s, i)).lanes <= s.q.lanesInUse
    ensures HeldBy(TopOf(s, i)).permits <= s.q.preparesInUse
  {
    hide HeldAll, HeldBy, HeldIn;
    TopHeld(s.threads[i]);
    HeldPart(s.threads, i);
  }

  lemma FinishLaneSound(s: State, i: nat)
    requires Sound(s) && Busy(s, i) && TopOf(s, i) == Finishing
    ensures Sound(FinishLaneStep(s, i))
  {
    hide HeldAll, Placed, InOrder, Outside, Moved, Put, Become, BecomeTwo, Return;
    NeverSaturates(s, i);
    var s' := FinishLaneStep(s, i);
    if s.q.waiting == [] {
      BecomeMoves(s.(q := s'.q), i, Notifying);
      OutsideSame(s, s');
      PlacedAfter(s, s', HeldBy(Finishing), NOTHING);
      AccountedAfter(s, s', HeldBy(Finishing), NOTHING);
      Settled(s, s');
    } else {
      var t := s.q.waiting[0];
      BecomeMoves(s.(q := s'.q, granted := s'.granted), i, Submitting(t, true));
      OutsideHanded(s, s');
      AddEmpty(Outside(s));
      PlacedAfter(s, s', HeldBy(Finishing), HeldBy(Submitting(t, true)));
      AccountedAfter(s, s', HeldBy(Finishing), HeldBy(Submitting(t, true)));
      HandOver(s, s');
    }
  }

  lemma FinishPrepareSound(s: State, i: nat)
    requires Sound(s) && Busy(s, i) && TopOf(s, i) == Releasing
    ensures Sound(FinishPrepareStep(s, i))
  {
    hide HeldAll, Placed, InOrder, Outside, Moved, Put, Become, BecomeTwo, Return;
    NeverSaturates(s, i);
    var s' := FinishPrepareStep(s, i);
    if s.q.waiting == [] {
      BecomeMoves(s.(q := s'.q), i, Notifying);
      OutsideSame(s, s');
      PlacedAfter(s, s', HeldBy(Releasing), NOTHING);
      AccountedAfter(s, s', HeldBy(Releasing), NOTHING);
      Settled(s, s');
    } else {
      var t := s.q.waiting[0];
      OwingMoves(s.(q := s'.q, granted := s'.granted), i, Submitting(t, true));
      OutsideHanded(s, s');
      AddEmpty(Outside(s));
      PlacedAfter(s, s', HeldBy(Releasing), HeldBy(Submitting(t, true)));
      AccountedAfter(s, s', HeldBy(Releasing), HeldBy(Submitting(t, true)));
      HandOver(s, s');
    }
  }

  lemma NotifySound(s: State, i: nat)
    requires Sound(s) && Busy(s, i) && TopOf(s, i) == Notifying
    ensures Sound(NotifyStep(s, i))
  {
    hide HeldAll;
    ReturnMoves(s, i);
    HeldWake(Return(s, i).threads);
    PlacedAfter(s, NotifyStep(s, i), NOTHING, NOTHING);
  }

  lemma AcquireLockSound(s: State, i: nat)
    requires Sound(s) && Busy(s, i) && TopOf(s, i) == Acquiring
    ensures Sound(AcquireLockStep(s, i))
  {
    hide HeldAll;
    ReturnMoves(s, i);
    BecomeMoves(s, i, Deciding);
    PlacedAfter(s, AcquireLockStep(s, i), NOTHING, NOTHING);
  }

  lemma DecideSound(s: State, i: nat)
    requires Sound(s) && Busy(s, i) && TopOf(s, i) == Deciding
    ensures Sound(DecideStep(s, i))
  {
    hide HeldAll;
    var frame := if CanPrepare(s.q) then Permitted else Blocked;
    BecomeMoves(s, i, frame);
    PlacedAfter(s, DecideStep(s, i), NOTHING, HeldBy(frame));
  }

  lemma ShutdownSound(s: State, i: nat)
    requires Sound(s) && MayCall(s, i)
    ensures Sound(ShutdownStep(s, i))
  {
    hide HeldAll;
    if !s.shutdown {
      PushMoves(s, i, Draining);
      PlacedAfter(s, ShutdownStep(s, i), NOTHING, NOTHING);
    }
  }

  lemma DrainSound(s: State, i: nat)
    requires Sound(s) && Busy(s, i) && TopOf(s, i) == Draining
    ensures Sound(DrainStep(s, i))
  {
    hide HeldAll, Placed, InOrder, Outside, Moved, Put, Become, BecomeTwo, Return;
    var s' := DrainStep(s, i);
    OwingMoves(s.(q := s'.q), i, Discarding(s.q.waiting));
    OutsideDrained(s, s');
    AddEmpty(Outside(s));
    PlacedAfter(s, s', NOTHING, HeldBy(Discarding(s.q.waiting)));
    AccountedAfter(s, s', NOTHING, HeldBy(Discarding(s.q.waiting)));
    DrainedOrder(s, s');
  }

  lemma DrainedOrder(s: State, s': State)
    requires InOrder(s) && s'.granted == s.granted && s'.q.waiting == [] && s'.next == s.next
    ensures InOrder(s')
  {
    assert s'.granted + s'.q.waiting == s.granted;
    assert forall k :: 0 <= k < |s.granted| ==> (s.granted + s.q.waiting)[k] == s.granted[k];
  }

  lemma DiscardSound(s: State, i: nat)
    requires Sound(s) && Busy(s, i) && TopOf(s, i).Discarding?
    ensures Sound(DiscardStep(s, i))
  {
    hide HeldAll, Placed, InOrder, Outside, Moved, Become, Return;
    var s', tasks := DiscardStep(s, i), TopOf(s, i).tasks;
    Settled(s, s');
    if tasks == [] {
      ReturnMoves(s, i);
      OutsideSame(s, s');
      PlacedAfter(s, s', HeldBy(TopOf(s, i)), NOTHING);
      AccountedAfter(s, s', HeldBy(TopOf(s, i)), NOTHING);
    } else {
      var mid := s.(rejected := s.rejected + [tasks[0]]);
      BecomeMoves(mid, i, Discarding(tasks[1..]));
      DiscardOutside(s, s', tasks);
      PlacedAfter(s, s', HeldBy(Discarding(tasks)), HeldBy(Discarding(tasks[1..])));
      AccountedAfter(s, s', HeldBy(Discarding(tasks)), HeldBy(Discarding(tasks[1..])));
    }
  }

  lemma DiscardOutside(s: State, s': State, tasks: seq<Task>)
    requires tasks != [] && s'.q.waiting == s.q.waiting && s'.queue == s.queue && s'.ran == s.ran
    requires s'.rejected == s.rejected + [tasks[0]]
    ensures Outside(s') + HeldBy(Discarding(tasks[1..])).tasks == Outside(s) + HeldBy(Discarding(tasks)).tasks
  {
    hide Outside, HeldBy;
    HeadTail(tasks);
    OutsideRejected(s, s', tasks[0]);
    DiscardingHolds(tasks);
    DiscardingHolds(tasks[1..]);
    Associate(Outside(s), multiset{tasks[0]}, multiset(tasks[1..]));
  }

  lemma DiscardingHolds(tasks: seq<Task>)
    ensures HeldBy(Discarding(tasks)).tasks == multiset(tasks)
  {}

  lemma Associate(a: multiset<Task>, b: multiset<Task>, c: multiset<Task>)
    ensures (a + b) + c == a + (b + c)
  {}

  lemma StepSound(s: State, step: Step)
    requires Sound(s) && Enabled(s, step)
    ensures Sound(Do(s, step))
  {
    hide Sound, ScheduleStep, SubmitStep, PushStep, WorkStep, FinishLaneStep, NotifyStep, AcquireLockStep, DecideStep;
    hide FinishPrepareStep, ShutdownStep, DrainStep, DiscardStep, Become;
    var i := step.thread;
    match step.action
    case Schedule => ScheduleSound(s, i);
    case Shutdown => ShutdownSound(s, i);
    case Acquire => AcquireSound(s, i);
    case Work => WorkSound(s, i);
    case SubmitTest => SubmitSound(s, i);
    case Push => PushSound(s, i);
    case TaskDone => FrameSound(s, i, Finishing);
    case FinishLane => FinishLaneSound(s, i);
    case NotifyAll => NotifySound(s, i);
    case AcquireLock => AcquireLockSound(s, i);
    case Decide => DecideSound(s, i);
    case PrepareDone => FrameSound(s, i, Releasing);
    case FinishPrepare => FinishPrepareSound(s, i);
    case Drain => DrainSound(s, i);
    case Discard => DiscardSound(s, i);
    case SpuriousWake => FrameSound(s, i, Acquiring);
  }

  lemma AcquireSound(s: State, i: nat)
    requires Sound(s) && Idle(s, i)
    ensures Sound(PushFrame(s, i, Acquiring))
  {
    hide HeldAll;
    PushMoves(s, i, Acquiring);
    PlacedAfter(s, PushFrame(s, i, Acquiring), NOTHING, NOTHING);
  }

  // ---------------------------------------------------------------- no lost wakeup

  predicate InAcquire(frame: Frame) {
    frame == Acquiring || frame == Deciding || frame == Blocked
  }

  /** A thread inside acquire_prepare is doing nothing else. */
  predicate Solo(stack: Stack) {
    (exists k :: 0 <= k < |stack| && InAcquire(stack[k])) ==> |stack| == 1
  }

  ghost predicate OwesIn(stack: Stack) {
    Notifying in stack || Draining in stack
  }

  /** Some thread still has to call notify_all: it says so, or it is about to drain. */
  ghost predicate Owes(threads: seq<Stack>) {
    exists i :: 0 <= i < |threads| && OwesIn(threads[i])
  }

  ghost predicate DrainOwed(threads: seq<Stack>) {
    exists i :: 0 <= i < |threads| && Draining in threads[i]
  }

  ghost predicate Sleeping(threads: seq<Stack>) {
    exists i :: 0 <= i < |threads| && threads[i] == [Blocked]
  }

  ghost predicate LockHeld(s: State) {
    && (s.lock <==> exists i :: 0 <= i < |s.threads| && s.threads[i] == [Deciding])
    && (forall i, j :: 0 <= i < |s.threads| && 0 <= j < |s.threads| && s.threads[i] == s.threads[j] == [Deciding] ==>
        i == j)
  }

  /**
   * No lost wakeup: a thread sleeping on prepare_wake either has nothing to wake for, or someone owes a
   * notify_all. The flag may be set between the read and the wait; the drain it announces then still lies ahead.
   */
  ghost predicate Awake(s: State) {
    && (forall i :: 0 <= i < |s.threads| ==> Solo(s.threads[i]))
    && LockHeld(s)
    && (Sleeping(s.threads) ==> (!CanPrepare(s.q) && !s.shutdown) || Owes(s.threads))
    && (s.lock && s.shutdown ==> DrainOwed(s.threads))
  }

  /** A step of one thread outside acquire_prepare's section that forgets no debt. */
  lemma PlainAwake(s: State, s': State, i: nat, stack: Stack)
    requires Awake(s) && i < |s.threads| && s'.threads == s.threads[i := stack]
    requires s'.lock == s.lock && s'.shutdown == s.shutdown
    requires Solo(stack) && stack != [Deciding] && stack != [Blocked] && s.threads[i] != [Deciding]
    requires OwesIn(s.threads[i]) ==> OwesIn(stack)
    requires s.lock && Draining in s.threads[i] ==> Draining in stack
    requires CanPrepare(s'.q) ==> CanPrepare(s.q) || OwesIn(stack)
    ensures Awake(s')
  {
    hide Solo, CanPrepare, OwesIn;
    OthersStay(s, s', i, stack);
    if s.lock {
      var j :| 0 <= j < |s.threads| && s.threads[j] == [Deciding];
      assert s'.threads[j] == [Deciding];
    }
    if OwesIn(stack) {
      assert OwesIn(s'.threads[i]);
    }
  }

  /** What other threads owe, and who sleeps. */
  lemma OthersStay(s: State, s': State, i: nat, stack: Stack)
    requires i < |s.threads| && s'.threads == s.threads[i := stack]
    ensures Owes(s.threads) && (OwesIn(s.threads[i]) ==> OwesIn(stack)) ==> Owes(s'.threads)
    ensures DrainOwed(s.threads) && (Draining in s.threads[i] ==> Draining in stack) ==> DrainOwed(s'.threads)
    ensures stack != [Blocked] && Sleeping(s'.threads) ==> Sleeping(s.threads)
  {
    hide OwesIn;
    if Owes(s.threads) && (OwesIn(s.threads[i]) ==> OwesIn(stack)) {
      var j :| 0 <= j < |s.threads| && OwesIn(s.threads[j]);
      assert OwesIn(s'.threads[j]);
    }
    if DrainOwed(s.threads) && (Draining in s.threads[i] ==> Draining in stack) {
      var j :| 0 <= j < |s.threads| && Draining in s.threads[j];
      assert Draining in s'.threads[j];
    }
    if stack != [Blocked] && Sleeping(s'.threads) {
      var j :| 0 <= j < |s'.threads| && s'.threads[j] == [Blocked];
      assert s.threads[j] == [Blocked];
    }
  }

  /** Frames below a call are never in acquire_prepare. */
  lemma BelowSolo(stack: Stack)
    requires Solo(stack) && stack != []
    ensures forall k :: 0 <= k < |Below(stack)| ==> !InAcquire(Below(stack)[k])
  {
    forall k | 0 <= k < |Below(stack)| ensures !InAcquire(Below(stack)[k]) {
      assert Below(stack)[k] == stack[k];
    }
  }

  lemma TopSplit(stack: Stack)
    requires stack != []
    ensures stack == Below(stack) + [stack[|stack| - 1]]
  {}

  /** A call that goes on in other frames, owing no less. */
  lemma BecomeAwake(s: State, s': State, i: nat, frames: Stack)
    requires Awake(s) && Busy(s, i) && s'.threads == s.threads[i := Below(s.threads[i]) + frames]
    requires s'.lock == s.lock && s'.shutdown == s.shutdown && TopOf(s, i) != Deciding
    requires forall k :: 0 <= k < |frames| ==> !InAcquire(frames[k])
    requires TopOf(s, i) == Notifying || TopOf(s, i) == Draining ==> OwesIn(frames)
    requires s.lock && TopOf(s, i) == Draining ==> Draining in frames
    requires CanPrepare(s'.q) ==> CanPrepare(s.q) || OwesIn(frames)
    ensures Awake(s')
  {
    hide CanPrepare, LockHeld, Sleeping, Owes, DrainOwed;
    var stack := s.threads[i];
    BelowSolo(stack);
    TopSplit(stack);
    var now := Below(stack) + frames;
    forall k | 0 <= k < |now| ensures !InAcquire(now[k]) {}
    assert forall f :: f in stack <==> f in Below(stack) || f == TopOf(s, i);
    assert forall f :: f in now <==> f in Below(stack) || f in frames;
    assert |now| == 1 ==> !InAcquire(now[0]);
    PlainAwake(s, s', i, now);
  }

  /** A new call of a thread outside acquire_prepare. */
  lemma CallAwake(s: State, s': State, i: nat, frame: Frame)
    requires Awake(s) && MayCall(s, i) && s'.threads == s.threads[i := s.threads[i] + [frame]]
    requires s'.lock == s.lock && s'.shutdown == s.shutdown && frame != Deciding && frame != Blocked
    requires frame == Acquiring ==> Idle(s, i)
    requires CanPrepare(s'.q) ==> CanPrepare(s.q)
    ensures Awake(s')
  {
    hide CanPrepare, LockHeld, Sleeping, Owes, DrainOwed;
    var stack := s.threads[i];
    CallerPlain(s, i);
    assert (stack + [frame])[|stack|] == frame;
    PlainAwake(s, s', i, stack + [frame]);
  }

  lemma CallerPlain(s: State, i: nat)
    requires Awake(s) && MayCall(s, i)
    ensures forall k :: 0 <= k < |s.threads[i]| ==> !InAcquire(s.threads[i][k])
  {
    var stack := s.threads[i];
    assert Solo(stack);
    forall k | 0 <= k < |stack| ensures !InAcquire(stack[k]) {}
  }

  lemma NotifyAwake(s: State, i: nat)
    requires Awake(s) && Busy(s, i) && TopOf(s, i) == Notifying
    ensures Awake(NotifyStep(s, i))
  {
    hide CanPrepare, Owes, OwesIn;
    var s', stack := NotifyStep(s, i), s.threads[i];
    BelowSolo(stack);
    TopSplit(stack);
    forall j | 0 <= j < |s'.threads|
      ensures s'.threads[j] != [Blocked] && Solo(s'.threads[j])
      ensures s'.threads[j] == [Deciding] <==> s.threads[j] == [Deciding]
      ensures Draining in s.threads[j] ==> Draining in s'.threads[j]
    {
      if j == i {
        assert Woken(Below(stack)) == Below(stack);
      } else {
        assert s'.threads[j] == Woken(s.threads[j]);
      }
    }
  }

  /** The section of acquire_prepare: entered with the flag clear, left by a grant, a wait or an error. */
  lemma EnterAwake(s: State, i: nat)
    requires Awake(s) && Busy(s, i) && TopOf(s, i) == Acquiring && !s.lock
    ensures Awake(AcquireLockStep(s, i))
  {
    hide CanPrepare, OwesIn;
    var s', stack := AcquireLockStep(s, i), s.threads[i];
    assert InAcquire(stack[|stack| - 1]);
    assert stack == [Acquiring] && Below(stack) == [];
    if s.shutdown {
      EmptyOwes();
      PlainAwake(s, s', i, []);
    } else {
      assert s'.threads[i] == [Deciding];
      EmptyOwes();
      OthersStay(s, s', i, [Deciding]);
      assert forall j :: 0 <= j < |s'.threads| && j != i ==> s'.threads[j] == s.threads[j];
    }
  }

  lemma EmptyOwes()
    ensures !OwesIn([]) && !OwesIn([Acquiring]) && !OwesIn([Deciding])
  {}

  lemma DecideAwake(s: State, i: nat)
    requires Awake(s) && Busy(s, i) && TopOf(s, i) == Deciding
    ensures Awake(DecideStep(s, i))
  {
    hide OwesIn;
    var s', stack := DecideStep(s, i), s.threads[i];
    assert InAcquire(stack[|stack| - 1]);
    assert stack == [Deciding] && Below(stack) == [];
    EmptyOwes();
    var now := if CanPrepare(s.q) then [Permitted] else [Blocked];
    var none: Stack := [];
    assert none + [Permitted] == [Permitted] && none + [Blocked] == [Blocked];
    assert s'.threads == s.threads[i := now];
    OthersStay(s, s', i, now);
    assert forall j :: 0 <= j < |s'.threads| && j != i ==> s'.threads[j] == s.threads[j];
    if s.shutdown {
      DrainOwes(s'.threads);
    }
  }

  lemma DrainOwes(threads: seq<Stack>)
    requires DrainOwed(threads)
    ensures Owes(threads)
  {
    var i :| 0 <= i < |threads| && Draining in threads[i];
    assert OwesIn(threads[i]);
  }

  lemma ShutdownAwake(s: State, i: nat)
    requires Awake(s) && MayCall(s, i)
    ensures Awake(ShutdownStep(s, i))
  {
    hide CanPrepare;
    if !s.shutdown {
      CallerPlain(s, i);
      var s', now := ShutdownStep(s, i), s.threads[i] + [Draining];
      assert Draining in now && s'.threads[i] == now;
      DrainOwes(s'.threads);
      assert forall j :: 0 <= j < |s'.threads| && j != i ==> s'.threads[j] == s.threads[j];
      if s.lock {
        var j :| 0 <= j < |s.threads| && s.threads[j] == [Deciding];
        assert InAcquire(s.threads[j][0]) && s'.threads[j] == [Deciding];
      }
    }
  }

  lemma StepAwake(s: State, step: Step)
    requires Accounted(s) && Awake(s) && Enabled(s, step)
    ensures Awake(Do(s, step))
  {
    hide Accounted, Awake, OwesIn;
    var i, s' := step.thread, Do(s, step);
    OwingFrames();
    match step.action
    case Schedule => ScheduleAwake(s, i);
    case Shutdown => ShutdownAwake(s, i);
    case Acquire => CallAwake(s, s', i, Acquiring);
    case Work => CallAwake(s, s', i, Running(s.queue[0]));
    case SubmitTest => SubmitAwake(s, i);
    case Push => ReturnAwake(s, s', i);
    case TaskDone => BecomeAwake(s, s', i, [Finishing]);
    case FinishLane => FinishAwake(s, i);
    case NotifyAll => NotifyAwake(s, i);
    case AcquireLock => EnterAwake(s, i);
    case Decide => DecideAwake(s, i);
    case PrepareDone => BecomeAwake(s, s', i, [Releasing]);
    case FinishPrepare => ReleaseAwake(s, i);
    case Drain => DrainAwake(s, i);
    case Discard => DiscardAwake(s, i);
    case SpuriousWake => SpuriousAwake(s, i);
  }

  lemma OwingFrames()
    ensures forall f :: OwesIn([f]) <==> f == Notifying || f == Draining
    ensures forall f :: OwesIn([Notifying, f])
  {
    assert forall f :: Notifying in [Notifying, f];
  }

  lemma ReturnAwake(s: State, s': State, i: nat)
    requires Awake(s) && Busy(s, i) && s'.threads == s.threads[i := Below(s.threads[i])] && s'.q == s.q
    requires s'.lock == s.lock && s'.shutdown == s.shutdown
    requires TopOf(s, i) != Deciding && TopOf(s, i) != Notifying && TopOf(s, i) != Draining
    ensures Awake(s')
  {
    assert Below(s.threads[i]) + [] == Below(s.threads[i]);
    BecomeAwake(s, s', i, []);
  }

  lemma ScheduleAwake(s: State, i: nat)
    requires Awake(s) && MayCall(s, i)
    ensures Awake(ScheduleStep(s, i))
  {
    var s' := ScheduleStep(s, i);
    if Scheduled(s.q, s.next).1 {
      CallAwake(s, s', i, Submitting(s.next, false));
    }
  }

  lemma SubmitAwake(s: State, i: nat)
    requires Awake(s) && Busy(s, i) && TopOf(s, i).Submitting?
    ensures Awake(SubmitStep(s, i))
  {
    hide Awake, OwesIn;
    var s', t := SubmitStep(s, i), TopOf(s, i).task;
    var below := Below(s.threads[i]);
    assert below + [Notifying] + [Rejecting(t)] == below + [Notifying, Rejecting(t)];
    BecomeAwake(s, s', i,
      if !s.shutdown then [Pushing(t)] else if TopOf(s, i).owes then [Notifying, Rejecting(t)] else [Rejecting(t)]);
  }

  lemma FinishAwake(s: State, i: nat)
    requires Accounted(s) && Awake(s) && Busy(s, i) && TopOf(s, i) == Finishing
    ensures Awake(FinishLaneStep(s, i))
  {
    hide Awake, OwesIn, HeldAll;
    OwingFrames();
    BecomeAwake(s, FinishLaneStep(s, i), i,
                if s.q.waiting == [] then [Notifying] else [Submitting(s.q.waiting[0], true)]);
  }

  lemma ReleaseAwake(s: State, i: nat)
    requires Awake(s) && Busy(s, i) && TopOf(s, i) == Releasing
    ensures Awake(FinishPrepareStep(s, i))
  {
    hide Awake, OwesIn;
    OwingFrames();
    var below := Below(s.threads[i]);
    if s.q.waiting == [] {
      BecomeAwake(s, FinishPrepareStep(s, i), i, [Notifying]);
    } else {
      var submit := Submitting(s.q.waiting[0], true);
      assert below + [Notifying] + [submit] == below + [Notifying, submit];
      BecomeAwake(s, FinishPrepareStep(s, i), i, [Notifying, submit]);
    }
  }

  lemma DrainAwake(s: State, i: nat)
    requires Awake(s) && Busy(s, i) && TopOf(s, i) == Draining && !s.lock
    ensures Awake(DrainStep(s, i))
  {
    hide Awake, OwesIn;
    OwingFrames();
    var below, discard := Below(s.threads[i]), Discarding(s.q.waiting);
    assert below + [Notifying] + [discard] == below + [Notifying, discard];
    BecomeAwake(s, DrainStep(s, i), i, [Notifying, discard]);
  }

  lemma DiscardAwake(s: State, i: nat)
    requires Awake(s) && Busy(s, i) && TopOf(s, i).Discarding?
    ensures Awake(DiscardStep(s, i))
  {
    hide Awake, OwesIn;
    var tasks := TopOf(s, i).tasks;
    if tasks == [] {
      ReturnAwake(s, DiscardStep(s, i), i);
    } else {
      BecomeAwake(s, DiscardStep(s, i), i, [Discarding(tasks[1..])]);
    }
  }

  lemma SpuriousAwake(s: State, i: nat)
    requires Awake(s) && Busy(s, i) && TopOf(s, i) == Blocked
    ensures Awake(Become(s, i, Acquiring))
  {
    hide CanPrepare, OwesIn;
    var stack := s.threads[i];
    assert InAcquire(stack[|stack| - 1]);
    assert stack == [Blocked] && Below(stack) + [Acquiring] == [Acquiring];
    EmptyOwes();
    BlockedOwes();
    PlainAwake(s, Become(s, i, Acquiring), i, [Acquiring]);
  }

  lemma BlockedOwes()
    ensures !OwesIn([Blocked])
  {}

  // ---------------------------------------------------------------- every reachable state

  lemma {:induction false} IdleHolds(threads: seq<Stack>)
    requires forall i :: 0 <= i < |threads| ==> threads[i] == [] || threads[i] == [Blocked]
    ensures HeldAll(threads) == NOTHING
  {
    hide HeldIn, HeldBy, Held.Plus;
    if threads != [] {
      var n := |threads| - 1;
      IdleHolds(threads[..n]);
      EmptyHolds();
      BlockedHolds();
      assert HeldIn(threads[n]) == NOTHING;
      NothingPlus(NOTHING);
    }
  }

  lemma EmptyHolds()
    ensures HeldIn([]) == NOTHING
  {}

  lemma BlockedHolds()
    ensures HeldIn([Blocked]) == NOTHING
  {
    hide HeldIn;
    HeldAlone(Blocked);
  }

  lemma InitSafe(laneCount: nat, prepareLaneCount: nat, threadCount: nat)
    ensures Sound(Init(laneCount, prepareLaneCount, threadCount))
      && Awake(Init(laneCount, prepareLaneCount, threadCount))
  {
    hide Awake, HeldAll, HeldIn, HeldBy;
    var s := Init(laneCount, prepareLaneCount, threadCount);
    IdleHolds(s.threads);
    assert Outside(s) == multiset{};
    InitAwake(laneCount, prepareLaneCount, threadCount);
  }

  lemma InitAwake(laneCount: nat, prepareLaneCount: nat, threadCount: nat)
    ensures Awake(Init(laneCount, prepareLaneCount, threadCount))
  {}

  /**
   * Safety over every run and interleaving, for any lane counts and number of threads: accounting, work
   * conservation, one place for every task, grants in schedule order, and no lost wakeup.
   */
  lemma {:induction false} Safety(laneCount: nat, prepareLaneCount: nat, threadCount: nat, steps: seq<Step>)
    requires Run(Init(laneCount, prepareLaneCount, threadCount), steps).Some?
    ensures var s := Run(Init(laneCount, prepareLaneCount, threadCount), steps).value; Sound(s) && Awake(s)
  {
    hide Accounted, Placed, InOrder, Awake, Do, Enabled;
    if steps == [] {
      InitSafe(laneCount, prepareLaneCount, threadCount);
    } else {
      var init := steps[..|steps| - 1];
      Safety(laneCount, prepareLaneCount, threadCount, init);
      var s := Run(Init(laneCount, prepareLaneCount, threadCount), init).value;
      StepSound(s, steps[|steps| - 1]);
      StepAwake(s, steps[|steps| - 1]);
    }
  }

  /** A task is run or rejected at most once in all, and exactly once when it is in no other place. */
  lemma OnceOnly(s: State, t: Task)
    requires Placed(s) && t < s.next
    ensures multiset(s.ran)[t] + multiset(s.rejected)[t] <= 1
    ensures multiset(s.ran)[t] + multiset(s.rejected)[t] == 1
      <==> t !in s.q.waiting && t !in s.queue && t !in HeldAll(s.threads).tasks
  {
    hide HeldAll;
    assert (Outside(s) + HeldAll(s.threads).tasks)[t] == 1;
  }

  /**
   * When every thread is idle or asleep and the executor queue is empty, the backend is finished: all lanes
   * are free, nothing waits, every task was run or rejected exactly once, and in fact nobody is asleep.
   */
  lemma QuietIsDone(s: State)
    requires Sound(s) && Awake(s) && s.queue == []
    requires forall i :: 0 <= i < |s.threads| ==> s.threads[i] == [] || s.threads[i] == [Blocked]
    ensures s.q.lanesInUse == 0 && s.q.preparesInUse == 0 && s.q.waiting == []
    ensures forall t: Task :: t < s.next ==> multiset(s.ran)[t] + multiset(s.rejected)[t] == 1
    ensures forall i :: 0 <= i < |s.threads| ==> s.threads[i] == []
  {
    hide HeldAll, Outside;
    IdleHolds(s.threads);
    assert s.q.waiting == [] && CanPrepare(s.q);
    forall t: Task | t < s.next ensures multiset(s.ran)[t] + multiset(s.rejected)[t] == 1 {
      OnceOnly(s, t);
    }
    NobodyAsleep(s);
  }

  lemma NobodyAsleep(s: State)
    requires Awake(s) && CanPrepare(s.q)
    requires forall i :: 0 <= i < |s.threads| ==> s.threads[i] == [] || s.threads[i] == [Blocked]
    ensures forall i :: 0 <= i < |s.threads| ==> s.threads[i] == []
  {
    assert !Owes(s.threads);
    if i: nat :| i < |s.threads| && s.threads[i] == [Blocked] {
      assert Sleeping(s.threads);
      assert false;
    }
  }

  /** No deadlock: while some call is under way and not asleep, one that is can take its next step. */
  lemma NotStuck(s: State, i: nat) returns (step: Step)
    requires Awake(s) && Busy(s, i) && s.threads[i] != [Blocked]
    ensures Enabled(s, step) && Busy(s, step.thread) && s.threads[step.thread] != [Blocked]
    ensures !step.action.Schedule? && !step.action.Shutdown?
  {
    if s.lock {
      var j: nat :| j < |s.threads| && s.threads[j] == [Deciding];
      return Step(j, Decide);
    }
    step := Step(i, match TopOf(s, i)
      case Running(_) => TaskDone
      case Rejecting(_) => TaskDone
      case Finishing => FinishLane
      case Submitting(_, _) => SubmitTest
      case Pushing(_) => Push
      case Notifying => NotifyAll
      case Acquiring => AcquireLock
      case Deciding => Decide
      case Blocked => SpuriousWake
      case Permitted => PrepareDone
      case Releasing => FinishPrepare
      case Draining => Drain
      case Discarding(_) => Discard);
  }
}
