/** What compiling depends on: the map from id to node, not the handles, slots or order chosen on the way. */
module Planner {
  import opened Common
  import opened Model
  import opened GraphState
  import opened Semantics
  import opened Compile
  import opened Ssa
  import opened Compiler
  import TopoSort

  /** The order compile_graph emits for a listing. */
  ghost predicate Emitted(nodes: seq<NodeSpec>, sorted: seq<nat>) {
    Ordered(nodes, sorted) && AllResolve(nodes) && TopoSort.TopologicalOrder(Edges(nodes), sorted)
  }

  lemma HandleListed(nodes: seq<NodeSpec>, g: Graph, id: string)
    requires Lists(nodes, g)
    ensures HandleOf(nodes, id).Some? <==> id in g
    ensures id in g ==> nodes[HandleOf(nodes, id).value] == g[id]
  {}

  /** Every name resolves to a handle exactly when the map is closed under dependencies. */
  lemma ResolveExact(nodes: seq<NodeSpec>, g: Graph)
    requires Lists(nodes, g)
    ensures AllResolve(nodes) <==> Resolvable(g)
  {
    hide DependencyIds;
    forall id ensures HandleOf(nodes, id).Some? <==> id in g { HandleListed(nodes, g, id); }
    if AllResolve(nodes) {
      forall id, d | id in g && d in DependencyIds(g[id]) ensures d in g {
        var h := HandleOf(nodes, id).value;
        HandleListed(nodes, g, id);
        assert IdsResolve(nodes, DependencyIds(nodes[h]));
      }
    }
    if Resolvable(g) {
      forall h | 0 <= h < |nodes| ensures IdsResolve(nodes, DependencyIds(nodes[h])) {
        assert nodes[h].id in g;
      }
    }
  }

  // ---------------------------------------------------------------- walks over handles and over names

  ghost function Names(nodes: seq<NodeSpec>, w: seq<nat>): (ids: seq<string>)
    requires forall i :: 0 <= i < |w| ==> w[i] < |nodes|
    ensures |ids| == |w| && forall i :: 0 <= i < |w| ==> ids[i] == nodes[w[i]].id
  {
    seq(|w|, i requires 0 <= i < |w| => nodes[w[i]].id)
  }

  lemma WalkNamed(nodes: seq<NodeSpec>, g: Graph, w: seq<nat>)
    requires Lists(nodes, g) && AllResolve(nodes) && TopoSort.Walk(Edges(nodes), w)
    ensures forall i :: 0 <= i < |w| ==> w[i] < |nodes|
    ensures IdWalk(g, Names(nodes, w))
    ensures NoDuplicates(Names(nodes, w)) ==> NoDuplicates(w)
  {
    hide DependencyIds;
    var ids := Names(nodes, w);
    forall i | 0 <= i < |w| - 1 ensures ids[i + 1] in DependencyIds(g[ids[i]]) {
      assert w[i + 1] in Edges(nodes)[w[i]];
      var e :| 0 <= e < |Edges(nodes)[w[i]]| && Edges(nodes)[w[i]][e] == w[i + 1];
      assert IdsResolve(nodes, DependencyIds(nodes[w[i]]));
      assert DependencyIds(nodes[w[i]])[e] == ids[i + 1];
    }
    forall i, j | 0 <= i < j < |w| && ids[i] != ids[j] ensures w[i] != w[j] {}
  }

  lemma WalkHandled(nodes: seq<NodeSpec>, g: Graph, ids: seq<string>) returns (w: seq<nat>)
    requires Lists(nodes, g) && AllResolve(nodes) && IdWalk(g, ids)
    ensures |w| == |ids| && forall i :: 0 <= i < |w| ==> w[i] < |nodes| && nodes[w[i]].id == ids[i]
    ensures TopoSort.Walk(Edges(nodes), w)
    ensures NoDuplicates(w) ==> NoDuplicates(ids)
  {
    hide DependencyIds;
    forall i | 0 <= i < |ids| ensures HandleOf(nodes, ids[i]).Some? { HandleListed(nodes, g, ids[i]); }
    w := seq(|ids|, i requires 0 <= i < |ids| => HandleOf(nodes, ids[i]).value);
    forall i | 0 <= i < |w| - 1 ensures w[i + 1] in Edges(nodes)[w[i]] {
      HandleListed(nodes, g, ids[i]);
      var ds := DependencyIds(nodes[w[i]]);
      assert ids[i + 1] in ds;
      var e :| 0 <= e < |ds| && ds[e] == ids[i + 1];
      assert IdsResolve(nodes, ds);
      assert Edges(nodes)[w[i]][e] == w[i + 1];
    }
    forall i, j | 0 <= i < j < |ids| && w[i] != w[j] ensures ids[i] != ids[j] {}
  }

  lemma CyclesAgree(nodes: seq<NodeSpec>, g: Graph, h: nat)
    requires Lists(nodes, g) && AllResolve(nodes) && h < |nodes|
    ensures TopoSort.ReachesCycle(Edges(nodes), h) <==> Cyclic(g, nodes[h].id)
  {
    hide Edges, AllResolve;
    if TopoSort.ReachesCycle(Edges(nodes), h) {
      var w: seq<nat> :| |w| > 0 && TopoSort.Walk(Edges(nodes), w) && w[0] == h && !NoDuplicates(w);
      WalkNamed(nodes, g, w);
      assert Names(nodes, w)[0] == nodes[h].id;
    }
    if Cyclic(g, nodes[h].id) {
      var ids: seq<string> :| |ids| > 0 && IdWalk(g, ids) && ids[0] == nodes[h].id && !NoDuplicates(ids);
      var w := WalkHandled(nodes, g, ids);
      assert w[0] == h;
    }
  }

  /** The emitted nodes are exactly the sortable ones. */
  lemma EmittedSortable(nodes: seq<NodeSpec>, g: Graph, sorted: seq<nat>, h: nat)
    requires Lists(nodes, g) && Emitted(nodes, sorted) && h < |nodes|
    ensures h in sorted <==> Sortable(g, nodes[h].id)
  {
    hide Cyclic, TopoSort.ReachesCycle;
    CyclesAgree(nodes, g, h);
  }

  lemma SortableEmitted(nodes: seq<NodeSpec>, g: Graph, sorted: seq<nat>, id: string) returns (j: nat)
    requires Lists(nodes, g) && Emitted(nodes, sorted) && Sortable(g, id)
    ensures j < |sorted| && nodes[sorted[j]].id == id && nodes[sorted[j]] == g[id]
  {
    hide Sortable;
    assert id in g by { SortableIn(g, id); }
    HandleListed(nodes, g, id);
    var h := HandleOf(nodes, id).value;
    EmittedSortable(nodes, g, sorted, h);
    j := Rank(sorted, h);
  }

  lemma SortableIn(g: Graph, id: string)
    requires Sortable(g, id)
    ensures id in g
  {}

  // ---------------------------------------------------------------- kinds

  /** In an emitted order every dependency was emitted too. */
  lemma DependencyEmitted(nodes: seq<NodeSpec>, g: Graph, sorted: seq<nat>, j: nat, id: string)
    requires Lists(nodes, g) && Emitted(nodes, sorted) && j < |sorted| && id in DependencyIds(nodes[sorted[j]])
    ensures HandleOf(nodes, id).Some? && HandleOf(nodes, id).value in sorted && id in g
    ensures nodes[HandleOf(nodes, id).value] == g[id]
  {
    var ids := DependencyIds(nodes[sorted[j]]);
    var i :| 0 <= i < |ids| && ids[i] == id;
    assert IdsResolve(nodes, ids);
    var h := HandleOf(nodes, id).value;
    assert Edges(nodes)[sorted[j]][i] == h;
    assert h in Edges(nodes)[sorted[j]];
    HandleListed(nodes, g, id);
  }

  /** The slot table of a dependency's kind, and no other, has its slots. */
  lemma DependencyTable(nodes: seq<NodeSpec>, g: Graph, sorted: seq<nat>, j: nat, id: string)
    requires Lists(nodes, g) && Emitted(nodes, sorted) && j < |sorted| && id in DependencyIds(nodes[sorted[j]])
    ensures HandleOf(nodes, id).Some? && id in g && nodes[HandleOf(nodes, id).value] == g[id]
    ensures forall kind :: SlotsFor(nodes, sorted, kind, HandleOf(nodes, id).value).Some? <==> OutputOf(g[id]) == kind
  {
    hide SlotsAt, Lists, TopoSort.TopologicalOrder, AllResolve, HandleOf, Rank, DependencyIds;
    DependencyEmitted(nodes, g, sorted, j, id);
  }

  /** All the inputs are emitted scalars. */
  predicate ScalarInputs(nodes: seq<NodeSpec>, sorted: seq<nat>, inputs: seq<string>)
    requires forall i :: 0 <= i < |sorted| ==> sorted[i] < |nodes|
  {
    forall i :: 0 <= i < |inputs| ==>
      HandleOf(nodes, inputs[i]).Some? && SlotsFor(nodes, sorted, Scalar, HandleOf(nodes, inputs[i]).value).Some?
  }

  lemma {:induction false} InputsResolve(nodes: seq<NodeSpec>, sorted: seq<nat>, inputs: seq<string>)
    requires forall i :: 0 <= i < |sorted| ==> sorted[i] < |nodes|
    ensures InputSlots(nodes, sorted, inputs).Some? <==> ScalarInputs(nodes, sorted, inputs)
    decreases |inputs|
  {
    hide SlotsFor, HandleOf;
    if inputs != [] {
      var init, last := inputs[..|inputs| - 1], inputs[|inputs| - 1];
      InputsResolve(nodes, sorted, init);
      assert ScalarInputs(nodes, sorted, inputs) <==>
        (ScalarInputs(nodes, sorted, init) &&
         HandleOf(nodes, last).Some? && SlotsFor(nodes, sorted, Scalar, HandleOf(nodes, last).value).Some?);
    }
  }

  /** A kernel's references exist exactly when the node's inputs have the kinds it needs. */
  lemma KernelExact(nodes: seq<NodeSpec>, g: Graph, sorted: seq<nat>, j: nat)
    requires Lists(nodes, g) && Emitted(nodes, sorted) && j < |sorted|
    ensures KernelAt(nodes, sorted, j).Some? <==> KindsMatch(g, nodes[sorted[j]])
  {
    hide SlotsAt, SlotStart, SlotsFor, Lists, TopoSort.TopologicalOrder, AllResolve, InputSlots, HandleOf, Rank;
    var node := nodes[sorted[j]];
    forall id | id in DependencyIds(node)
      ensures HandleOf(nodes, id).Some? && id in g && nodes[HandleOf(nodes, id).value] == g[id]
      ensures forall kind :: SlotsFor(nodes, sorted, kind, HandleOf(nodes, id).value).Some? <==> OutputOf(g[id]) == kind
    {
      DependencyTable(nodes, g, sorted, j, id);
    }
    match node
    case Combine(_, inputs, _, _) =>
      InputsResolve(nodes, sorted, inputs);
      assert forall i :: 0 <= i < |inputs| ==> inputs[i] in DependencyIds(node);
    case _ =>
      if node.source.Node? {
        SourceNamed(node);
      }
  }

  /** compile_graph returns a plan exactly for compilable maps, whatever the listing and order. */
  lemma CompilesExact(s: State, nodes: seq<NodeSpec>, sorted: seq<nat>)
    requires Lists(nodes, s.nodes) && Ordered(nodes, sorted)
    requires AllResolve(nodes) && HandleOf(nodes, s.finalField).Some? ==>
      TopoSort.TopologicalOrder(Edges(nodes), sorted)
    ensures Compiles(s.finalField, nodes, sorted) <==> Compilable(s)
  {
    hide Sortable, KernelAt, AllResolve, Resolvable, KindsMatch, HandleOf, Rank, SlotsAt, Lists;
    hide TopoSort.TopologicalOrder;
    ResolveExact(nodes, s.nodes);
    FinalListed(nodes, s);
    if AllResolve(nodes) && HandleOf(nodes, s.finalField).Some? {
      KernelsExact(nodes, s.nodes, sorted);
      FinalExact(nodes, s, sorted);
    }
  }

  lemma FinalListed(nodes: seq<NodeSpec>, s: State)
    requires Lists(nodes, s.nodes)
    ensures Sortable(s.nodes, s.finalField) ==> HandleOf(nodes, s.finalField).Some?
  {
    hide Cyclic;
    HandleListed(nodes, s.nodes, s.finalField);
  }

  lemma KernelsExact(nodes: seq<NodeSpec>, g: Graph, sorted: seq<nat>)
    requires Lists(nodes, g) && Emitted(nodes, sorted)
    ensures AllKernels(nodes, sorted) <==> (forall id :: Sortable(g, id) ==> KindsMatch(g, g[id]))
  {
    hide Sortable, KernelAt, AllResolve, KindsMatch, TopoSort.TopologicalOrder;
    forall id | Sortable(g, id)
      ensures id in g && exists j :: 0 <= j < |sorted| && nodes[sorted[j]] == g[id]
    {
      SortableIn(g, id);
      var j := SortableEmitted(nodes, g, sorted, id);
    }
    if AllKernels(nodes, sorted) {
      forall id | Sortable(g, id) ensures KindsMatch(g, g[id]) {
        var j :| 0 <= j < |sorted| && nodes[sorted[j]] == g[id];
        KernelExact(nodes, g, sorted, j);
      }
    }
    if forall id :: Sortable(g, id) ==> KindsMatch(g, g[id]) {
      forall j | 0 <= j < |sorted| ensures KernelAt(nodes, sorted, j).Some? {
        EmittedSortable(nodes, g, sorted, sorted[j]);
        KernelExact(nodes, g, sorted, j);
      }
    }
  }

  lemma FinalExact(nodes: seq<NodeSpec>, s: State, sorted: seq<nat>)
    requires Lists(nodes, s.nodes) && Emitted(nodes, sorted)
    ensures HandleOf(nodes, s.finalField).Some?
      && SlotsFor(nodes, sorted, Scalar, HandleOf(nodes, s.finalField).value).Some?
      <==> Sortable(s.nodes, s.finalField) && OutputOf(s.nodes[s.finalField]).Scalar?
  {
    hide Cyclic, SlotsAt, AllResolve, TopoSort.TopologicalOrder;
    HandleListed(nodes, s.nodes, s.finalField);
    if s.finalField in s.nodes {
      EmittedSortable(nodes, s.nodes, sorted, HandleOf(nodes, s.finalField).value);
    }
  }

  // ---------------------------------------------------------------- slot demand

  /** One element per dynamic slot: a sortable node and a component of its output. */
  ghost function SlotNames(g: Graph): set<(string, nat)> {
    set id, c: nat | id in g && c < 3 && Sortable(g, id) && c < Width(g[id]) :: (id, c)
  }

  ghost function PrefixNames(nodes: seq<NodeSpec>, sorted: seq<nat>, n: nat): set<(string, nat)>
    requires n <= |sorted| && Ordered(nodes, sorted)
  {
    set j, c: nat | 0 <= j < n && c < 3 && c < Width(nodes[sorted[j]]) :: (nodes[sorted[j]].id, c)
  }

  lemma {:induction false} PrefixDemand(nodes: seq<NodeSpec>, sorted: seq<nat>, n: nat)
    requires n <= |sorted| && Ordered(nodes, sorted) && DistinctIds(nodes)
    ensures |PrefixNames(nodes, sorted, n)| == SlotStart(nodes, sorted, n) - 32
  {
    if n > 0 {
      PrefixDemand(nodes, sorted, n - 1);
      PrefixStep(nodes, sorted, n);
    }
  }

  lemma PrefixStep(nodes: seq<NodeSpec>, sorted: seq<nat>, n: nat)
    requires 0 < n <= |sorted| && Ordered(nodes, sorted) && DistinctIds(nodes)
    ensures |PrefixNames(nodes, sorted, n)| == |PrefixNames(nodes, sorted, n - 1)| + Width(nodes[sorted[n - 1]])
  {
    hide Width;
    var node := nodes[sorted[n - 1]];
    var before, own := PrefixNames(nodes, sorted, n - 1), set c: nat | c < 3 && c < Width(node) :: (node.id, c);
    OwnNames(node);
    assert PrefixNames(nodes, sorted, n) == before + own;
    forall x | x in before ensures x !in own {
      var j :| 0 <= j < n - 1 && x.0 == nodes[sorted[j]].id;
      assert sorted[j] != sorted[n - 1];
    }
  }

  lemma OwnNames(node: NodeSpec)
    ensures |set c: nat | c < 3 && c < Width(node) :: (node.id, c)| == Width(node)
  {
    var own := set c: nat | c < 3 && c < Width(node) :: (node.id, c);
    if Width(node) == 1 {
      assert own == {(node.id, 0)};
    } else if Width(node) == 2 {
      assert own == {(node.id, 0), (node.id, 1)};
    } else {
      assert own == {(node.id, 0), (node.id, 1), (node.id, 2)};
    }
  }

  lemma DistinctListed(nodes: seq<NodeSpec>, g: Graph)
    requires Lists(nodes, g)
    ensures DistinctIds(nodes)
  {}

  lemma NamesEmitted(nodes: seq<NodeSpec>, g: Graph, sorted: seq<nat>)
    requires Lists(nodes, g) && Emitted(nodes, sorted)
    ensures SlotNames(g) <= PrefixNames(nodes, sorted, |sorted|)
  {
    hide Sortable, AllResolve, TopoSort.TopologicalOrder, Width;
    forall x | x in SlotNames(g) ensures x in PrefixNames(nodes, sorted, |sorted|) {
      var j := SortableEmitted(nodes, g, sorted, x.0);
    }
  }

  lemma EmittedNames(nodes: seq<NodeSpec>, g: Graph, sorted: seq<nat>)
    requires Lists(nodes, g) && Emitted(nodes, sorted)
    ensures PrefixNames(nodes, sorted, |sorted|) <= SlotNames(g)
  {
    hide Sortable, AllResolve, TopoSort.TopologicalOrder, Width;
    forall x | x in PrefixNames(nodes, sorted, |sorted|) ensures x in SlotNames(g) {
      var j: nat :| j < |sorted| && x.0 == nodes[sorted[j]].id && x.1 < Width(nodes[sorted[j]]);
      EmittedSortable(nodes, g, sorted, sorted[j]);
    }
  }

  /** How many dynamic slots a compile allocates depends on the map alone. */
  lemma DemandExact(nodes: seq<NodeSpec>, g: Graph, sorted: seq<nat>)
    requires Lists(nodes, g) && Emitted(nodes, sorted)
    ensures Demand(nodes, sorted) == |SlotNames(g)|
  {
    hide Lists, AllResolve, TopoSort.TopologicalOrder, SlotNames, PrefixNames;
    DistinctListed(nodes, g);
    PrefixDemand(nodes, sorted, |sorted|);
    NamesEmitted(nodes, g, sorted);
    EmittedNames(nodes, g, sorted);
    assert SlotNames(g) == PrefixNames(nodes, sorted, |sorted|);
  }

  lemma RunsExact(ops: Ops, s: State, o: Occasion, nodes: seq<NodeSpec>, sorted: seq<nat>)
    requires Lists(nodes, s.nodes) && Emitted(nodes, sorted)
    ensures FirstRun(ops, s.dim, o, nodes, sorted, |sorted|) <==> AllRun(ops, s, o)
  {
    hide Sortable, Runs, AllResolve, TopoSort.TopologicalOrder;
    forall id | Sortable(s.nodes, id)
      ensures id in s.nodes && exists j :: 0 <= j < |sorted| && nodes[sorted[j]] == s.nodes[id]
    {
      SortableIn(s.nodes, id);
      var j := SortableEmitted(nodes, s.nodes, sorted, id);
    }
    forall j | 0 <= j < |sorted| ensures Sortable(s.nodes, nodes[sorted[j]].id) {
      EmittedSortable(nodes, s.nodes, sorted, sorted[j]);
    }
  }
}
