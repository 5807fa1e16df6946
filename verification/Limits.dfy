/** Concrete inputs and runs: the smallest stack, and why the conditions on graphs, batches and records are there. */
module Limits {
  import opened Common
  import opened Model
  import opened GraphState
  import opened Semantics
  import opened Pipeline
  import opened Packet
  import opened Grid
  import opened Compile
  import opened Ssa
  import opened Planner
  import opened Results
  import opened Backend
  import opened Compiler
  import opened StackCore
  import opened Runtime
  import Inline
  import P = StackProtocol
  import R = Reachability
  import TopoSort

  /** A sample, and a node that adds it to itself. */
  function Doubling(noise: Noise): State {
    State(D2, "c", map["a" := Sample("a", D2, Base, noise), "c" := Combine("c", ["a", "a"], Add, [])])
  }

  /** One sample of the base coordinates, in a 2D graph. */
  function OneSample(d: GraphDimension, noise: Noise): State {
    State(D2, "a", map["a" := Sample("a", d, Base, noise)])
  }

  function Smallest(noise: Noise): State {
    OneSample(D2, noise)
  }

  /** A 3D sample in a 2D graph. */
  function Misdimensioned(noise: Noise): State {
    OneSample(D3, noise)
  }

  lemma ShortWalks(g: Graph, w: seq<string>)
    requires IdWalk(g, w)
    requires forall id :: id in g ==>
      forall d :: d in DependencyIds(g[id]) ==> d != id && d in g && DependencyIds(g[d]) == []
    ensures NoDuplicates(w)
  {
    if |w| >= 3 {
      LongWalk(g, w);
      assert false;
    }
    if |w| == 2 {
      assert w[1] in DependencyIds(g[w[0]]);
    }
  }

  lemma LongWalk(g: Graph, w: seq<string>)
    requires IdWalk(g, w) && |w| >= 3
    ensures w[1] in DependencyIds(g[w[0]]) && w[2] in DependencyIds(g[w[1]])
  {
    assert w[1 + 1] in DependencyIds(g[w[1]]);
  }

  lemma FewSlots(g: Graph)
    requires forall id :: id in g ==> id == "a" || id == "c"
    ensures |SlotNames(g)| <= DYNAMIC_SLOTS
  {
    hide Sortable, Width;
    var all := {("a", 0), ("a", 1), ("a", 2), ("c", 0), ("c", 1), ("c", 2)};
    forall x | x in SlotNames(g) ensures x in all {}
    SubsetSize(SlotNames(g), all);
  }

  lemma OneSampleOrder(d: GraphDimension, noise: Noise)
    ensures var nodes := [Sample("a", d, Base, noise)];
      && AllResolve(nodes) && Edges(nodes) == [[]] && TopoSort.TopologicalOrder(Edges(nodes), [0])
  {
    var nodes := [Sample("a", d, Base, noise)];
    var none: seq<nat> := [];
    assert IdsResolve(nodes, DependencyIds(nodes[0]));
    assert Handles(nodes, DependencyIds(nodes[0])) == none;
    var deps := Edges(nodes);
    assert deps == [none];
    forall w: seq<nat> | TopoSort.Walk(deps, w) ensures NoDuplicates(w) {
      if |w| >= 2 {
        FirstStep(deps, w);
        assert false;
      }
    }
    forall h | 0 <= h < |deps| ensures h in [0] <==> !TopoSort.ReachesCycle(deps, h) {}
  }

  lemma FirstStep(deps: seq<seq<nat>>, w: seq<nat>)
    requires TopoSort.Walk(deps, w) && |w| >= 2
    ensures w[1] in deps[w[0]]
  {
    assert w[0 + 1] in deps[w[0]];
  }

  lemma OneSampleCompiles(d: GraphDimension, noise: Noise)
    ensures var s, nodes := OneSample(d, noise), [Sample("a", d, Base, noise)];
      && CompileOf(s, nodes, [0]) && Storable(nodes) && Compiles(s.finalField, nodes, [0])
  {
    hide TopoSort.TopologicalOrder, Edges;
    OneSampleOrder(d, noise);
    var s, nodes := OneSample(d, noise), [Sample("a", d, Base, noise)];
    assert nodes[0].id == "a";
    assert HandleOf(nodes, "a") == Some(0);
    assert Rank([0], 0) == 0;
    forall j | 0 <= j < 1 ensures KernelAt(nodes, [0], j).Some? {}
  }

  /** Its node, and nothing else, is compiled. */
  lemma OneSampleAccepted(d: GraphDimension, noise: Noise)
    ensures Accepted(OneSample(d, noise)) && Sortable(OneSample(d, noise).nodes, "a")
  {
    var s := OneSample(d, noise);
    forall w: seq<string> | IdWalk(s.nodes, w) ensures NoDuplicates(w) { ShortWalks(s.nodes, w); }
    assert Sortable(s.nodes, "a");
    FewSlots(s.nodes);
  }

  /** The smallest graph is accepted, so stacks exist, and every batch of the right shape runs on it. */
  lemma SmallestStackExists(ops: Ops, noise: Noise)
    ensures Accepted(Smallest(noise)) && AllRunnable(ops, Smallest(noise))
    ensures exists plan, stages :: P.CompilesTo(Smallest(noise), plan, stages)
  {
    hide CompileOf, Compiles, PlanFor, Prepared;
    var s, nodes := Smallest(noise), [Sample("a", D2, Base, noise)];
    OneSampleAccepted(D2, noise);
    OneSampleCompiles(D2, noise);
    PlanPrepares(s, nodes, [0]);
    var plan := PlanFor(s, nodes, [0]);
    assert Frozen(Version(1, plan, Prepared(plan.stages).value), s, nodes, [0]);
    assert P.CompilesTo(s, plan, Prepared(plan.stages).value);
  }

  /** It compiles and validates, but no batch with a sample can run: the two operands share a buffer. */
  lemma DoublingNeverRuns(ops: Ops, noise: Noise)
    ensures Accepted(Doubling(noise)) && !AllRunnable(ops, Doubling(noise))
  {
    var s := Doubling(noise);
    forall w: seq<string> | IdWalk(s.nodes, w) ensures NoDuplicates(w) { ShortWalks(s.nodes, w); }
    assert Sortable(s.nodes, "c") && Sortable(s.nodes, "a");
    FewSlots(s.nodes);
  }

  /** It compiles and validates, but no batch with a sample can run: the third coordinate is never filled. */
  lemma MisdimensionedNeverRuns(ops: Ops, noise: Noise)
    ensures Accepted(Misdimensioned(noise)) && !AllRunnable(ops, Misdimensioned(noise))
  {
    OneSampleAccepted(D3, noise);
  }

  /** A packet that once served a 3D graph: cleared, it still has an empty third coordinate buffer. */
  lemma ThirdLeftOver(ops: Ops, view: View)
    requires GridInited(ops, D3, view).Ok?
    ensures HasThird(Cleared(GridInited(ops, D3, view).value))
  {
    hide GridInited;
    var now := GridInited(ops, D3, view).value;
    Inline.KernelWrites(ops, GridInit(D3), view);
    assert SLOT_BASE_Z in Targets(GridInit(D3)) by {
      assert BaseSlots(3)[2] == SLOT_BASE_Z;
    }
    assert HasThird(now);
  }

  /** So the misdimensioned graph answers the empty batch on such a packet and fails it on a new one. */
  lemma MisdimensionedTwoPackets(ops: Ops, noise: Noise)
    ensures var s, nodes, left := Misdimensioned(noise), [Sample("a", D3, Base, noise)], map[SLOT_BASE_Z := F32([])];
      && CompileOf(s, nodes, [0]) && Storable(nodes) && Compiles(s.finalField, nodes, [0])
      && Answered(ops, s, nodes, [0], [], View(0, map[])).Err?
      && Answered(ops, s, nodes, [0], [], View(0, left)) == Ok([])
  {
    hide CompileOf, Compiles, Answered, Accepted, Sortable;
    var s, nodes := Misdimensioned(noise), [Sample("a", D3, Base, noise)];
    var left := View(0, map[SLOT_BASE_Z := F32([])]);
    OneSampleAccepted(D3, noise);
    OneSampleCompiles(D3, noise);
    assert !AllRun(ops, s, Occasion(false, false));
    assert AllRun(ops, s, Occasion(false, true)) by {
      forall id | Sortable(s.nodes, id) ensures id in s.nodes && Runs(ops, s.dim, Occasion(false, true), s.nodes[id]) {
        SortableListed(s.nodes, id);
      }
    }
    StateCorrect(ops, s, nodes, [0], [], View(0, map[]));
    StateCorrect(ops, s, nodes, [0], [], left);
    assert !HasThird(View(0, map[])) && HasThird(left);
  }

  /** A grid of 65536 by 65536 samples: its end offset wraps to 0. */
  lemma OffsetWraps(origin: seq<f32>, step: seq<f32>)
    requires |origin| == 2 && |step| == 2
    ensures var queries := [Grid2D(65536, 65536, origin, step)];
      Total(queries) == U32_COUNT && OffsetsOf(queries) == [0, 0]
  {
    var queries := [Grid2D(65536, 65536, origin, step)];
    assert queries[..0] == [];
  }

  // ---------------------------------------------------------------- runs from creation

  /** On the smallest stack, a batch of one sample is answered and collected. */
  lemma SmallestDelivers(ops: Ops, noise: Noise, origin: seq<f32>, step: seq<f32>)
    returns (first: Version, steps: seq<P.Step>, job: P.Job, values: P.Values)
    requires |origin| == 2 && |step| == 2
    ensures var end := P.Run(ops, P.Created(first, Smallest(noise)), steps);
      end.Some? && end.value.jobs == [job] && end.value.collectors == [P.Collector(0, Some(Ok(values)), true)]
    ensures job.record.Completed? && job.delivered == [values]
    ensures P.CompilesTo(Smallest(noise), first.plan, first.stages)
    ensures AnswersBatch(ops, Smallest(noise).nodes, "a", [Grid2D(1, 1, origin, step)], values)
  {
    hide CompileOf, Compiles, PlanFor, Prepared, P.Run, AnswersBatch, AllRunnable, AllRun, HasThird;
    var s, nodes, queries := Smallest(noise), [Sample("a", D2, Base, noise)], [Grid2D(1, 1, origin, step)];
    SmallestStackExists(ops, noise);
    OneSampleAccepted(D2, noise);
    OneSampleCompiles(D2, noise);
    PlanPrepares(s, nodes, [0]);
    first := Version(1, PlanFor(s, nodes, [0]), Prepared(PlanFor(s, nodes, [0]).stages).value);
    assert Frozen(first, s, nodes, [0]);
    assert queries[..0] == [];
    SampledRuns(ops, s, Occasion(Total(queries) > 0, HasThird(View(0, map[]))));
    steps, job, values := R.AnswerReached(ops, first, s, nodes, [0], queries, View(0, map[]));
  }

  lemma DeclineMoves(c: R.Scene, job: P.Job)
    requires R.Sound(c, job) && |R.Current(c).stages| > 0
    ensures R.Moves(c, job, P.Handing(P.EncodeTask), P.Hand(0, false), job.(refused := true, disturbed := true),
                    P.Declined(ExecutorShutdown))
  {
    hide P.Move, P.With, R.OneJob;
    R.OneJobParts(c, job, P.Handing(P.EncodeTask), job.(refused := true, disturbed := true),
                  P.Declined(ExecutorShutdown));
  }

  lemma RejectMoves(c: R.Scene, job: P.Job, e: BraidError)
    requires R.Sound(c, job)
    ensures R.Moves(c, job, P.Declined(e), P.Reject(0), job.(packet := None), P.Rejecting(e, true))
  {
    hide P.Move, P.With, R.OneJob;
    R.OneJobParts(c, job, P.Declined(e), job.(packet := None), P.Rejecting(e, true));
  }

  lemma RejectedMoves(c: R.Scene, job: P.Job, e: BraidError)
    requires R.Sound(c, job)
    ensures R.Moves(c, job, P.Rejecting(e, true), P.Rejected(0),
                    job.(record := P.Failed(Some(e)), writes := job.writes + 1), P.Unwinding(e))
  {
    hide P.Move, P.With, R.OneJob;
    R.OneJobParts(c, job, P.Rejecting(e, true), job.(record := P.Failed(Some(e)), writes := job.writes + 1),
                  P.Unwinding(e));
  }

  /** On any new stack with a stage: dispatch an empty batch, and refuse the hand-off of stage 0. */
  function RefusedRun(): seq<P.Step> {
    R.BeginRun([], []) + [P.Work(0, None, View(0, map[]))] + [P.Hand(0, false)]
    + [P.Reject(0)] + [P.Rejected(0)] + [P.Clean(0)] + [P.Fail(0)]
  }

  /** That run is possible, and writes the job's failed record twice. */
  lemma RefusalFailsTwice(ops: Ops, first: Version, planner: State)
    requires |first.stages| > 0
    ensures var end := P.Run(ops, P.Created(first, planner), RefusedRun());
      && end.Some? && |end.value.jobs| == 1
      && end.value.jobs[0].writes == 2 && end.value.jobs[0].record == P.Failed(Some(ExecutorShutdown))
  {
    hide P.Run, R.Moves, R.BeginRun;
    var start, e, none := P.Created(first, planner), ExecutorShutdown, [];
    var c := R.Scene(ops, start, start);
    R.StartsReady(c);
    R.Encodes(c, [], none, View(0, map[]));
    var packet := Some(R.EncodedIn(c, none, View(0, map[])).value);
    var handing := R.Plain(c, none, P.Active, packet, View(0, map[]), [P.EncodeTask]);
    var s1 := R.BeginRun([], none) + [P.Work(0, None, View(0, map[]))];
    DeclineMoves(c, handing);
    var declined := handing.(refused := true, disturbed := true);
    R.Follow(c, s1, handing, P.Handing(P.EncodeTask), P.Hand(0, false), declined, P.Declined(e));
    var s2 := s1 + [P.Hand(0, false)];
    RejectMoves(c, declined, e);
    var dropped := declined.(packet := None);
    R.Follow(c, s2, declined, P.Declined(e), P.Reject(0), dropped, P.Rejecting(e, true));
    var s3 := s2 + [P.Reject(0)];
    RejectedMoves(c, dropped, e);
    var once := dropped.(record := P.Failed(Some(e)), writes := 1);
    R.Follow(c, s3, dropped, P.Rejecting(e, true), P.Rejected(0), once, P.Unwinding(e));
    var s4 := s3 + [P.Rejected(0)];
    R.CleanMoves(c, once, e);
    R.Follow(c, s4, once, P.Unwinding(e), P.Clean(0), once, P.Failing(e));
    R.FailMoves(c, once, e);
    R.Follow(c, s4 + [P.Clean(0)], once, P.Failing(e), P.Fail(0), once.(writes := 2), P.Returning);
  }
}
