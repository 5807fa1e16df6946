/** The lane accounting of one backend: what each section under its lock does. */
module LaneQueue {
  import opened Common

  /** Tasks are numbered in the order their schedule call enters the lock. */
  type Task = nat

  datatype Queue = Queue(
    laneCount: nat, prepareLaneCount: nat, lanesInUse: nat, preparesInUse: nat, waiting: seq<Task>)

  function SaturatingSub(a: nat, b: nat): nat {
    if a < b then 0 else a - b
  }

  function Max(a: nat, b: nat): nat {
    if a < b then b else a
  }

  function Min(a: nat, b: nat): nat {
    if a < b then a else b
  }

  /** At least one lane, and prepare lanes within them. */
  function NewQueue(laneCount: nat, prepareLaneCount: nat): (q: Queue)
    ensures q.laneCount == if laneCount >= 1 then laneCount else 1
    ensures q.prepareLaneCount ==
      if prepareLaneCount < 1 then 1 else if prepareLaneCount > q.laneCount then q.laneCount else prepareLaneCount
    ensures q.lanesInUse == 0 && q.preparesInUse == 0 && q.waiting == []
  {
    Queue(Max(laneCount, 1), Min(Max(prepareLaneCount, 1), Max(laneCount, 1)), 0, 0, [])
  }

  /** schedule: take a free lane or queue up. */
  function Scheduled(q: Queue, t: Task): (Queue, bool) {
    if q.lanesInUse < q.laneCount
    then (q.(lanesInUse := q.lanesInUse + 1), true)
    else (q.(waiting := q.waiting + [t]), false)
  }

  /** acquire_prepare's condition: no waiting stage work, a free lane and a free prepare lane. */
  predicate CanPrepare(q: Queue) {
    q.waiting == [] && q.lanesInUse < q.laneCount && q.preparesInUse < q.prepareLaneCount
  }

  function PrepareGranted(q: Queue): Queue {
    q.(lanesInUse := q.lanesInUse + 1, preparesInUse := q.preparesInUse + 1)
  }

  /** finish_lane: hand the lane to the oldest waiter, or free it. */
  function LaneFinished(q: Queue): (Queue, Option<Task>) {
    if q.waiting != []
    then (q.(waiting := q.waiting[1..]), Some(q.waiting[0]))
    else (q.(lanesInUse := SaturatingSub(q.lanesInUse, 1)), None)
  }

  /** finish_prepare: free both counts, then give the lane to the oldest waiter. */
  function PrepareFinished(q: Queue): (Queue, Option<Task>) {
    var freed := q.(preparesInUse := SaturatingSub(q.preparesInUse, 1), lanesInUse := SaturatingSub(q.lanesInUse, 1));
    if q.waiting != []
    then (freed.(waiting := q.waiting[1..], lanesInUse := freed.lanesInUse + 1), Some(q.waiting[0]))
    else (freed, None)
  }

  function Drained(q: Queue): Queue {
    q.(waiting := [])
  }

  /** One backend's state object and the calls that change it, run by one thread to completion. */
  class BackendRuntime {
    const laneCount: nat
    const prepareLaneCount: nat
    var lanesInUse: nat
    var preparesInUse: nat
    var waiting: seq<Task>

    /** The executor behind it: its shutdown flag and queue. */
    var shutdown: bool
    var submitted: seq<Task>

    /** What the calls did: tasks rejected, in order, and notify_all calls on prepare_wake. */
    ghost var rejected: seq<Task>
    ghost var notified: nat

    ghost function Value(): Queue
      reads this
    {
      Queue(laneCount, prepareLaneCount, lanesInUse, preparesInUse, waiting)
    }

    constructor (laneCount: nat, prepareLaneCount: nat)
      ensures Value() == NewQueue(laneCount, prepareLaneCount)
      ensures this.laneCount == if laneCount >= 1 then laneCount else 1
      ensures this.prepareLaneCount ==
        if prepareLaneCount < 1 then 1
        else if prepareLaneCount > this.laneCount then this.laneCount else prepareLaneCount
      ensures lanesInUse == 0 && preparesInUse == 0 && waiting == []
      ensures !shutdown && submitted == [] && rejected == [] && notified == 0
    {
      this.laneCount := if laneCount < 1 then 1 else laneCount;
      var lanes := if laneCount < 1 then 1 else laneCount;
      var prepares := if prepareLaneCount < 1 then 1 else prepareLaneCount;
      this.prepareLaneCount := if prepares < lanes then prepares else lanes;
      lanesInUse, preparesInUse, waiting := 0, 0, [];
      shutdown, submitted, rejected, notified := false, [], [], 0;
    }

    /** schedule: a task that cannot be handed over is rejected and its lane passed on. */
    method Schedule(t: Task) returns (r: Result<()>)
      modifies this
      ensures shutdown == old(shutdown)
      ensures r.Err? <==> shutdown && old(lanesInUse) < laneCount
      ensures r.Ok? ==> Value() == Scheduled(old(Value()), t).0 && rejected == old(rejected)
      ensures r.Ok? && old(lanesInUse) < laneCount ==>
        lanesInUse == old(lanesInUse) + 1 && waiting == old(waiting) && submitted == old(submitted) + [t]
      ensures r.Ok? && old(lanesInUse) >= laneCount ==>
        lanesInUse == old(lanesInUse) && waiting == old(waiting) + [t] && submitted == old(submitted)
      ensures preparesInUse == old(preparesInUse)
      ensures r.Err? ==> r.error == ExecutorShutdown && rejected == old(rejected) + [t] + old(waiting)
      ensures r.Err? ==> waiting == [] && lanesInUse == old(lanesInUse)
    {
      if lanesInUse < laneCount {
        lanesInUse := lanesInUse + 1;
        var ok := SubmitReady(t);
        return if ok then Ok(()) else Err(ExecutorShutdown);
      }
      waiting := waiting + [t];
      return Ok(());
    }

    method SubmitReady(t: Task) returns (ok: bool)
      requires lanesInUse > 0
      modifies this
      ensures shutdown == old(shutdown) && ok == !shutdown && preparesInUse == old(preparesInUse)
      ensures ok ==> Value() == old(Value()) && submitted == old(submitted) + [t]
      ensures ok ==> rejected == old(rejected) && notified == old(notified)
      ensures !ok ==> waiting == [] && lanesInUse == old(lanesInUse) - 1 && submitted == old(submitted)
      ensures !ok ==> rejected == old(rejected) + [t] + old(waiting) && notified > old(notified)
      decreases |waiting|, 2
    {
      if shutdown {
        Reject(t);
        return false;
      }
      submitted := submitted + [t];
      return true;
    }

    /** The rejected task's lane is finished like any other. */
    method Reject(t: Task)
      requires lanesInUse > 0 && shutdown
      modifies this
      ensures shutdown && preparesInUse == old(preparesInUse) && submitted == old(submitted)
      ensures waiting == [] && lanesInUse == old(lanesInUse) - 1
      ensures rejected == old(rejected) + [t] + old(waiting) && notified > old(notified)
      decreases |waiting|, 1
    {
      rejected := rejected + [t];
      FinishLane();
    }

    /**
     * finish_lane. While the executor runs, the oldest waiter inherits the lane. After shutdown the
     * recursion through submit_ready and reject ends: every waiter is rejected in order, and the lane is freed.
     */
    method FinishLane()
      requires lanesInUse > 0
      modifies this
      ensures shutdown == old(shutdown) && preparesInUse == old(preparesInUse)
      ensures shutdown || old(waiting) == [] ==> waiting == [] && lanesInUse == old(lanesInUse) - 1
      ensures shutdown || old(waiting) == [] ==> submitted == old(submitted) && notified > old(notified)
      ensures shutdown || old(waiting) == [] ==> rejected == old(rejected) + old(waiting)
      ensures !shutdown && old(waiting) != [] ==> Value() == LaneFinished(old(Value())).0 && rejected == old(rejected)
      ensures !shutdown && old(waiting) != [] ==> submitted == old(submitted) + [old(waiting)[0]]
      ensures !shutdown && old(waiting) != [] ==> waiting == old(waiting)[1..] && lanesInUse == old(lanesInUse)
      decreases |waiting|, 0
    {
      if waiting != [] {
        var task := waiting[0];
        waiting := waiting[1..];
        var ok := SubmitReady(task);
        if !ok {
          notified := notified + 1;
        }
      } else {
        lanesInUse := SaturatingSub(lanesInUse, 1);
        notified := notified + 1;
      }
    }

    /** acquire_prepare, up to the point where it would wait: None means block. */
    method TryAcquirePrepare() returns (r: Option<Result<()>>)
      modifies this`lanesInUse, this`preparesInUse
      ensures shutdown ==> r == Some(Err(ExecutorShutdown))
      ensures !shutdown ==> r == None || r == Some(Ok(()))
      ensures r == Some(Ok(())) <==>
        !shutdown && waiting == [] && old(lanesInUse) < laneCount && old(preparesInUse) < prepareLaneCount
      ensures Value() == if r == Some(Ok(())) then PrepareGranted(old(Value())) else old(Value())
      ensures r == Some(Ok(())) ==> lanesInUse == old(lanesInUse) + 1 && preparesInUse == old(preparesInUse) + 1
    {
      if shutdown {
        return Some(Err(ExecutorShutdown));
      }
      if waiting == [] && lanesInUse < laneCount && preparesInUse < prepareLaneCount {
        lanesInUse := lanesInUse + 1;
        preparesInUse := preparesInUse + 1;
        return Some(Ok(()));
      }
      return None;
    }

    /** finish_prepare, when a permit is dropped. */
    method FinishPrepare()
      requires lanesInUse > 0 && preparesInUse > 0
      modifies this
      ensures shutdown == old(shutdown) && preparesInUse == old(preparesInUse) - 1 && notified > old(notified)
      ensures shutdown || old(waiting) == [] ==> waiting == [] && lanesInUse == old(lanesInUse) - 1
      ensures shutdown || old(waiting) == [] ==> rejected == old(rejected) + old(waiting) && submitted == old(submitted)
      ensures !shutdown && old(waiting) != [] ==> Value() == PrepareFinished(old(Value())).0
      ensures !shutdown && old(waiting) != [] ==>
        submitted == old(submitted) + [old(waiting)[0]] && rejected == old(rejected)
      ensures !shutdown && old(waiting) != [] ==> waiting == old(waiting)[1..] && lanesInUse == old(lanesInUse)
    {
      preparesInUse := SaturatingSub(preparesInUse, 1);
      lanesInUse := SaturatingSub(lanesInUse, 1);
      if waiting != [] {
        var task := waiting[0];
        waiting := waiting[1..];
        lanesInUse := lanesInUse + 1;
        var ok := SubmitReady(task);
        if !ok {
          notified := notified + 1;
        }
      }
      notified := notified + 1;
    }

    /** shutdown: the flag is swapped once; the first caller drains and rejects the waiters, which hold no lane. */
    method Shutdown()
      modifies this
      ensures shutdown && submitted == old(submitted)
      ensures old(shutdown) ==> Value() == old(Value()) && rejected == old(rejected) && notified == old(notified)
      ensures !old(shutdown) ==> Value() == Drained(old(Value())) && rejected == old(rejected) + old(waiting)
      ensures waiting == (if old(shutdown) then old(waiting) else [])
      ensures lanesInUse == old(lanesInUse) && preparesInUse == old(preparesInUse)
      ensures !old(shutdown) ==> notified == old(notified) + 1
    {
      if shutdown {
        return;
      }
      shutdown := true;
      var drained := waiting;
      waiting := [];
      for i := 0 to |drained|
        invariant shutdown && submitted == old(submitted) && notified == old(notified)
        invariant Value() == Drained(old(Value())) && drained == old(waiting)
        invariant rejected == old(rejected) + drained[..i]
      {
        rejected := rejected + [drained[i]];
      }
      assert drained[..|drained|] == drained;
      notified := notified + 1;
    }
  }
}
