/** Kahn's algorithm as compile_graph runs it, and what it emits. */
module TopoSort {
  import opened Common

  /** deps[h] lists the handles h reads, repeats included. */
  ghost predicate WellFormed(deps: seq<seq<nat>>) {
    forall h, d :: 0 <= h < |deps| && d in deps[h] ==> d < |deps|
  }

  /** A path that keeps following dependencies. */
  ghost predicate Walk(deps: seq<seq<nat>>, w: seq<nat>) {
    && |w| > 0
    && (forall i :: 0 <= i < |w| ==> w[i] < |deps|)
    && (forall i :: 0 <= i < |w| - 1 ==> w[i + 1] in deps[w[i]])
  }

  /** h lies on a cycle, or some ancestor of h does. */
  ghost predicate ReachesCycle(deps: seq<seq<nat>>, h: nat) {
    exists w: seq<nat> :: Walk(deps, w) && w[0] == h && !NoDuplicates(w)
  }

  ghost predicate DepsBefore(deps: seq<seq<nat>>, sorted: seq<nat>) {
    && (forall j :: 0 <= j < |sorted| ==> sorted[j] < |deps|)
    && (forall j, d :: 0 <= j < |sorted| && d in deps[sorted[j]] ==> d in sorted[..j])
  }

  /** The emitted order: no repeats, dependencies first, and exactly the handles that reach no cycle. */
  ghost predicate TopologicalOrder(deps: seq<seq<nat>>, sorted: seq<nat>) {
    && NoDuplicates(sorted)
    && DepsBefore(deps, sorted)
    && (forall h :: 0 <= h < |deps| ==> (h in sorted <==> !ReachesCycle(deps, h)))
  }

  function Count(s: seq<nat>, x: nat): nat {
    if s == [] then 0 else Count(s[..|s| - 1], x) + if s[|s| - 1] == x then 1 else 0
  }

  /** Dependency occurrences not yet emitted: what indegree counts down. */
  function Pending(ds: seq<nat>, done: seq<nat>): nat {
    if ds == [] then 0 else Pending(ds[..|ds| - 1], done) + if ds[|ds| - 1] in done then 0 else 1
  }

  lemma {:induction false} PendingStep(ds: seq<nat>, done: seq<nat>, u: nat)
    requires u !in done
    ensures Pending(ds, done + [u]) + Count(ds, u) == Pending(ds, done)
  {
    if ds != [] {
      PendingStep(ds[..|ds| - 1], done, u);
    }
  }

  lemma {:induction false} PendingNone(ds: seq<nat>)
    ensures Pending(ds, []) == |ds|
  {
    if ds != [] {
      PendingNone(ds[..|ds| - 1]);
    }
  }

  lemma {:induction false} PendingZero(ds: seq<nat>, done: seq<nat>)
    ensures Pending(ds, done) == 0 <==> forall d :: d in ds ==> d in done
  {
    if ds != [] {
      PendingZero(ds[..|ds| - 1], done);
      assert ds == ds[..|ds| - 1] + [ds[|ds| - 1]];
    }
  }

  lemma {:induction false} CountPrefix(s: seq<nat>, k: nat, x: nat)
    requires k <= |s|
    ensures Count(s[..k], x) <= Count(s, x)
    ensures k < |s| ==> Count(s[..k + 1], x) == Count(s[..k], x) + if s[k] == x then 1 else 0
    decreases |s|
  {
    if k == |s| {
      assert s[..k] == s;
    } else {
      assert s[..k + 1][..k] == s[..k];
      CountPrefix(s[..|s| - 1], k, x);
      assert s[..|s| - 1][..k] == s[..k];
    }
  }

  lemma CountSnoc(s: seq<nat>, y: nat, x: nat)
    ensures Count(s + [y], x) == Count(s, x) + if x == y then 1 else 0
  {
    assert (s + [y])[..|s|] == s;
  }

  /** adjacency holds the edges of handles below h and the first i edges of h itself, reversed. */
  ghost predicate Reverses(deps: seq<seq<nat>>, adjacency: seq<seq<nat>>, h: nat, i: nat)
    requires h < |deps| ==> i <= |deps[h]|
  {
    && |adjacency| == |deps|
    && (forall d, c :: 0 <= d < |deps| && c in adjacency[d] ==> c < |deps|)
    && (forall d: nat, c: nat {:trigger Count(adjacency[d], c)} :: d < |deps| && c < |deps| ==>
         Count(adjacency[d], c) ==
           if c < h then Count(deps[c], d) else if c == h then Count(deps[c][..i], d) else 0)
  }

  lemma AddEdge(deps: seq<seq<nat>>, adjacency: seq<seq<nat>>, h: nat, i: nat)
    requires WellFormed(deps) && h < |deps| && i < |deps[h]|
    requires Reverses(deps, adjacency, h, i)
    ensures var d := deps[h][i]; d < |deps| && Reverses(deps, adjacency[d := adjacency[d] + [h]], h, i + 1)
  {
    var e := deps[h][i];
    assert e in deps[h];
    var adjacency' := adjacency[e := adjacency[e] + [h]];
    forall d: nat, c: nat | d < |deps| && c < |deps|
      ensures Count(adjacency'[d], c) ==
        if c < h then Count(deps[c], d) else if c == h then Count(deps[c][..i + 1], d) else 0
    {
      CountSnoc(adjacency[e], h, c);
      CountPrefix(deps[h], i, d);
      assert Count(adjacency[d], c) ==
        if c < h then Count(deps[c], d) else if c == h then Count(deps[c][..i], d) else 0;
    }
  }

  /** Every list of children is ascending, and holds no handle above h. */
  ghost predicate Ascending(adjacency: seq<seq<nat>>, h: nat) {
    && (forall d, a :: 0 <= d < |adjacency| && 0 <= a < |adjacency[d]| ==> adjacency[d][a] <= h)
    && (forall d, a, b :: 0 <= d < |adjacency| && 0 <= a < b < |adjacency[d]| ==> adjacency[d][a] <= adjacency[d][b])
  }

  method ReverseEdges(deps: seq<seq<nat>>) returns (adjacency: seq<seq<nat>>, indegree: array<nat>)
    requires WellFormed(deps)
    ensures Reverses(deps, adjacency, |deps|, 0) && Ascending(adjacency, |deps|)
    ensures fresh(indegree) && indegree.Length == |deps|
    ensures forall h :: 0 <= h < |deps| ==> indegree[h] == |deps[h]|
  {
    indegree := new nat[|deps|](_ => 0);
    adjacency := seq(|deps|, _ => []);
    assert forall d :: 0 <= d < |deps| ==> adjacency[d] == [];
    for h := 0 to |deps|
      invariant Reverses(deps, adjacency, h, 0) && Ascending(adjacency, h)
      invariant forall c :: 0 <= c < |deps| ==> indegree[c] == if c < h then |deps[c]| else 0
    {
      for i := 0 to |deps[h]|
        invariant Reverses(deps, adjacency, h, i) && Ascending(adjacency, h)
        invariant forall c :: 0 <= c < |deps| ==> indegree[c] == if c < h then |deps[c]| else if c == h then i else 0
      {
        AddEdge(deps, adjacency, h, i);
        var d := deps[h][i];
        adjacency := adjacency[d := adjacency[d] + [h]];
        indegree[h] := indegree[h] + 1;
      }
      assert deps[h][..|deps[h]|] == deps[h];
      assert h + 1 < |deps| ==> deps[h + 1][..0] == [];
    }
  }

  /** The state between two pops: indegree counts pending edges, and zero means emitted or queued. */
  ghost predicate KahnState(deps: seq<seq<nat>>, indegree: seq<nat>, sorted: seq<nat>, queue: seq<nat>) {
    && |indegree| == |deps|
    && NoDuplicates(sorted + queue)
    && (forall h :: h in sorted + queue ==> h < |deps|)
    && (forall h :: 0 <= h < |deps| ==> indegree[h] == Pending(deps[h], sorted))
    && (forall h: nat :: h < |deps| ==> (indegree[h] == 0 <==> h in sorted + queue))
    && DepsBefore(deps, sorted)
  }

  /** The state while the children of u are being released, k of them done. */
  ghost predicate ReleaseState(
    deps: seq<seq<nat>>, adjacency: seq<seq<nat>>, indegree: seq<nat>, sorted: seq<nat>, u: nat, queue: seq<nat>,
    k: nat)
  {
    && |indegree| == |adjacency| == |deps| && u < |deps| && k <= |adjacency[u]|
    && NoDuplicates(sorted + [u] + queue)
    && (forall h :: h in sorted + [u] + queue ==> h < |deps|)
    && (forall h :: 0 <= h < |deps| ==> indegree[h] + Count(adjacency[u][..k], h) == Pending(deps[h], sorted))
    && (forall h: nat :: h < |deps| ==> (indegree[h] == 0 <==> h in sorted + [u] + queue))
    && DepsBefore(deps, sorted + [u])
  }

  lemma NotBefore(sorted: seq<nat>, u: nat, queue: seq<nat>)
    requires NoDuplicates(sorted + [u] + queue)
    ensures u !in sorted
  {
    var all := sorted + [u] + queue;
    assert forall i :: 0 <= i < |sorted| ==> all[i] == sorted[i] && all[i] != all[|sorted|];
  }

  lemma Pop(deps: seq<seq<nat>>, adjacency: seq<seq<nat>>, indegree: seq<nat>, sorted: seq<nat>, queue: seq<nat>)
    requires |adjacency| == |deps| && KahnState(deps, indegree, sorted, queue) && queue != []
    ensures ReleaseState(deps, adjacency, indegree, sorted, queue[0], queue[1..], 0)
  {
    var u := queue[0];
    assert sorted + queue == sorted + [u] + queue[1..];
    assert u in sorted + queue;
    assert adjacency[u][..0] == [];
    PendingZero(deps[u], sorted);
    var s := sorted + [u];
    forall j, d | 0 <= j < |s| && d in deps[s[j]] ensures d in s[..j] {
      assert s[..j] == sorted[..j];
    }
    forall j | 0 <= j < |s| ensures s[j] < |deps| {
      assert s[j] in s + queue[1..];
    }
  }

  /** A child with an unreleased edge still has a positive indegree: the subtraction never saturates. */
  lemma ChildPositive(deps: seq<seq<nat>>, adjacency: seq<seq<nat>>, indegree: seq<nat>, sorted: seq<nat>, u: nat,
                      queue: seq<nat>, k: nat)
    requires Reverses(deps, adjacency, |deps|, 0)
    requires ReleaseState(deps, adjacency, indegree, sorted, u, queue, k) && k < |adjacency[u]|
    ensures adjacency[u][k] < |deps| && indegree[adjacency[u][k]] > 0
  {
    var c := adjacency[u][k];
    assert c in adjacency[u];
    NotBefore(sorted, u, queue);
    PendingStep(deps[c], sorted, u);
    CountPrefix(adjacency[u], k, c);
    CountPrefix(adjacency[u], k + 1, c);
    assert Count(adjacency[u], c) == Count(deps[c], u);
  }

  lemma Release(deps: seq<seq<nat>>, adjacency: seq<seq<nat>>, indegree: seq<nat>, sorted: seq<nat>, u: nat,
                queue: seq<nat>, k: nat)
    requires Reverses(deps, adjacency, |deps|, 0)
    requires ReleaseState(deps, adjacency, indegree, sorted, u, queue, k) && k < |adjacency[u]|
    ensures adjacency[u][k] < |deps| && indegree[adjacency[u][k]] > 0
    ensures var c := adjacency[u][k];
      ReleaseState(deps, adjacency, indegree[c := indegree[c] - 1], sorted, u,
        if indegree[c] == 1 then queue + [c] else queue, k + 1)
  {
    ChildPositive(deps, adjacency, indegree, sorted, u, queue, k);
    var c := adjacency[u][k];
    var queue' := if indegree[c] == 1 then queue + [c] else queue;
    assert c !in sorted + [u] + queue;
    assert queue' == queue + [c] ==> sorted + [u] + queue' == (sorted + [u] + queue) + [c];
    forall h | 0 <= h < |deps|
      ensures indegree[c := indegree[c] - 1][h] + Count(adjacency[u][..k + 1], h) == Pending(deps[h], sorted)
    {
      CountPrefix(adjacency[u], k, h);
    }
  }

  lemma Released(deps: seq<seq<nat>>, adjacency: seq<seq<nat>>, indegree: seq<nat>, sorted: seq<nat>, u: nat,
                 queue: seq<nat>)
    requires Reverses(deps, adjacency, |deps|, 0) && u < |adjacency|
    requires ReleaseState(deps, adjacency, indegree, sorted, u, queue, |adjacency[u]|)
    ensures KahnState(deps, indegree, sorted + [u], queue)
  {
    assert adjacency[u][..|adjacency[u]|] == adjacency[u];
    NotBefore(sorted, u, queue);
    forall h | 0 <= h < |deps| ensures indegree[h] == Pending(deps[h], sorted + [u]) {
      PendingStep(deps[h], sorted, u);
      assert Count(adjacency[u], h) == Count(deps[h], u);
    }
  }

  // ---------------------------------------------------------------- breadth first

  /** All that h reads is among the first p handles, and none fewer. */
  ghost predicate ReadyAt(deps: seq<seq<nat>>, all: seq<nat>, h: nat, p: nat)
    requires h < |deps|
  {
    p <= |all| && (forall d :: d in deps[h] ==> d in all[..p]) && (p > 0 ==> all[p - 1] in deps[h])
  }

  /** ready[i] is when all[i] became ready; earlier readiness goes first, then the smaller handle. */
  ghost predicate InTurn(deps: seq<seq<nat>>, all: seq<nat>, ready: seq<nat>) {
    && |ready| == |all|
    && (forall i :: 0 <= i < |all| ==> all[i] < |deps| && ReadyAt(deps, all, all[i], ready[i]))
    && (forall i, j :: 0 <= i < j < |all| ==> ready[i] < ready[j] || (ready[i] == ready[j] && all[i] < all[j]))
  }

  /** The order is breadth first: by when the last dependency was emitted, and among equals by handle. */
  ghost predicate BreadthFirst(deps: seq<seq<nat>>, sorted: seq<nat>) {
    exists ready :: InTurn(deps, sorted, ready)
  }

  lemma RootTurn(deps: seq<seq<nat>>, queue: seq<nat>, h: nat)
    requires h < |deps| && deps[h] == [] && InTurn(deps, queue, seq(|queue|, _ => 0))
    requires forall x :: x in queue ==> x < h
    ensures InTurn(deps, queue + [h], seq(|queue| + 1, _ => 0))
  {
    forall i | 0 <= i < |queue| ensures queue[i] < h {
      assert queue[i] in queue;
    }
    TurnSnoc(deps, queue, seq(|queue|, _ => 0), h, 0);
    assert seq<nat>(|queue|, _ => 0) + [0] == seq<nat>(|queue| + 1, _ => 0);
  }

  lemma EmptyTurn(deps: seq<seq<nat>>)
    ensures InTurn(deps, [], [])
  {}

  lemma TurnPopped(deps: seq<seq<nat>>, adjacency: seq<seq<nat>>, sorted: seq<nat>, queue: seq<nat>, ready: seq<nat>)
    requires queue != [] && queue[0] < |adjacency| && InTurn(deps, sorted + queue, ready)
    requires forall i :: 0 <= i < |ready| ==> ready[i] <= |sorted|
    ensures TurnState(deps, adjacency, sorted, queue[0], queue[1..], 0, ready)
  {
    assert sorted + [queue[0]] + queue[1..] == sorted + queue;
  }

  lemma ReadySnoc(deps: seq<seq<nat>>, all: seq<nat>, h: nat, p: nat, c: nat)
    requires h < |deps| && ReadyAt(deps, all, h, p)
    ensures ReadyAt(deps, all + [c], h, p)
  {
    assert (all + [c])[..p] == all[..p];
  }

  lemma TurnSnoc(deps: seq<seq<nat>>, all: seq<nat>, ready: seq<nat>, c: nat, p: nat)
    requires InTurn(deps, all, ready) && c < |deps| && p <= |all| && ReadyAt(deps, all, c, p)
    requires forall i :: 0 <= i < |all| ==> ready[i] < p || (ready[i] == p && all[i] < c)
    ensures InTurn(deps, all + [c], ready + [p])
  {
    hide ReadyAt;
    var all', ready' := all + [c], ready + [p];
    forall i | 0 <= i < |all'| ensures all'[i] < |deps| && ReadyAt(deps, all', all'[i], ready'[i]) {
      ReadySnoc(deps, all, all'[i], ready'[i], c);
    }
  }

  /** A child whose last pending edge is released reads only what has been emitted, and the handle just emitted. */
  lemma ChildReady(deps: seq<seq<nat>>, adjacency: seq<seq<nat>>, indegree: seq<nat>, sorted: seq<nat>, u: nat,
                   queue: seq<nat>, k: nat)
    requires Reverses(deps, adjacency, |deps|, 0)
    requires ReleaseState(deps, adjacency, indegree, sorted, u, queue, k) && k < |adjacency[u]|
    requires adjacency[u][k] < |indegree| && indegree[adjacency[u][k]] == 1
    ensures adjacency[u][k] < |deps| && ReadyAt(deps, sorted + [u] + queue, adjacency[u][k], |sorted| + 1)
    ensures adjacency[u][k] !in sorted + [u] + queue
  {
    var c, all := adjacency[u][k], sorted + [u] + queue;
    assert c in adjacency[u];
    NotBefore(sorted, u, queue);
    PendingStep(deps[c], sorted, u);
    CountPrefix(adjacency[u], k, c);
    CountPrefix(adjacency[u], k + 1, c);
    assert Count(adjacency[u], c) == Count(deps[c], u);
    PendingZero(deps[c], sorted + [u]);
    assert all[..|sorted| + 1] == sorted + [u];
    CountIn(deps[c], u);
  }

  lemma {:induction false} CountIn(s: seq<nat>, x: nat)
    requires Count(s, x) > 0
    ensures x in s
  {
    if s[|s| - 1] != x {
      CountIn(s[..|s| - 1], x);
    }
  }

  /** While the children of u are released, whoever became ready with u is among the children done. */
  ghost predicate TurnState(
    deps: seq<seq<nat>>, adjacency: seq<seq<nat>>, sorted: seq<nat>, u: nat, queue: seq<nat>, k: nat, ready: seq<nat>)
  {
    && u < |adjacency| && k <= |adjacency[u]| && InTurn(deps, sorted + [u] + queue, ready)
    && forall i :: 0 <= i < |ready| ==>
         ready[i] <= |sorted| || (ready[i] == |sorted| + 1 && (sorted + [u] + queue)[i] in adjacency[u][..k])
  }

  lemma ReleaseTurn(deps: seq<seq<nat>>, adjacency: seq<seq<nat>>, indegree: seq<nat>, sorted: seq<nat>, u: nat,
                    queue: seq<nat>, k: nat, ready: seq<nat>)
    requires Reverses(deps, adjacency, |deps|, 0) && Ascending(adjacency, |deps|)
    requires ReleaseState(deps, adjacency, indegree, sorted, u, queue, k) && k < |adjacency[u]|
    requires TurnState(deps, adjacency, sorted, u, queue, k, ready) && adjacency[u][k] < |indegree|
    ensures indegree[adjacency[u][k]] == 1 ==>
      TurnState(deps, adjacency, sorted, u, queue + [adjacency[u][k]], k + 1, ready + [|sorted| + 1])
    ensures indegree[adjacency[u][k]] != 1 ==> TurnState(deps, adjacency, sorted, u, queue, k + 1, ready)
  {
    hide Reverses, ReadyAt;
    var c, all := adjacency[u][k], sorted + [u] + queue;
    assert adjacency[u][..k + 1] == adjacency[u][..k] + [c];
    if indegree[c] == 1 {
      ChildReady(deps, adjacency, indegree, sorted, u, queue, k);
      forall i | 0 <= i < |all| ensures ready[i] < |sorted| + 1 || (ready[i] == |sorted| + 1 && all[i] < c) {
        if ready[i] == |sorted| + 1 {
          var a :| 0 <= a < k && adjacency[u][a] == all[i];
          assert all[i] in all;
        }
      }
      TurnSnoc(deps, all, ready, c, |sorted| + 1);
      assert sorted + [u] + (queue + [c]) == all + [c];
    }
  }

  lemma PlaceOf(s: seq<nat>, x: nat) returns (i: nat)
    requires x in s
    ensures i < |s| && s[i] == x
  {
    i :| 0 <= i < |s| && s[i] == x;
  }

  /** What stands at m in one order and not before m in the other, stands at or after m there. */
  lemma PlaceAfter(s1: seq<nat>, s2: seq<nat>, m: nat) returns (j: nat)
    requires NoDuplicates(s1) && m < |s1| && m <= |s2| && s1[..m] == s2[..m] && s1[m] in s2
    ensures m <= j < |s2| && s2[j] == s1[m]
  {
    j := PlaceOf(s2, s1[m]);
    assert forall i :: 0 <= i < m ==> s2[..m][i] == s2[i] && s1[..m][i] == s1[i];
  }

  lemma ReadyInside(deps: seq<seq<nat>>, s: seq<nat>, m: nat, p: nat)
    requires NoDuplicates(s) && DepsBefore(deps, s) && m < |s| && s[m] < |deps| && ReadyAt(deps, s, s[m], p)
    ensures p <= m
  {}

  /** What is emitted at m in one order is ready at the same moment wherever it stands in the other. */
  lemma SameReady(deps: seq<seq<nat>>, s1: seq<nat>, s2: seq<nat>, m: nat, j: nat, p: nat, q: nat)
    requires NoDuplicates(s1) && NoDuplicates(s2) && DepsBefore(deps, s1)
    requires m < |s1| && m <= j < |s2| && s1[..m] == s2[..m] && s1[m] == s2[j] && s1[m] < |deps|
    requires ReadyAt(deps, s1, s1[m], p) && ReadyAt(deps, s2, s2[j], q)
    ensures p == q
  {
    hide DepsBefore;
    ReadyInside(deps, s1, m, p);
    assert s1[..p] == s1[..m][..p] == s2[..p];
    assert forall i :: 0 <= i < m ==> s2[..m][i] == s2[i] && s1[..m][i] == s1[i];
  }

  /** Of two handles that follow the same beginning in two orders, neither can go before the other in both. */
  lemma TurnsAgree(deps: seq<seq<nat>>, s1: seq<nat>, s2: seq<nat>, m: nat, i: nat, j: nat)
    requires BreadthFirst(deps, s1) && BreadthFirst(deps, s2) && NoDuplicates(s1) && NoDuplicates(s2)
    requires DepsBefore(deps, s1) && DepsBefore(deps, s2)
    requires m <= i < |s1| && m <= j < |s2| && s1[..m] == s2[..m] && s1[m] == s2[j] && s2[m] == s1[i]
    ensures s1[m] == s2[m]
  {
    hide ReadyAt, DepsBefore;
    var r1 :| InTurn(deps, s1, r1);
    var r2 :| InTurn(deps, s2, r2);
    SameReady(deps, s1, s2, m, j, r1[m], r2[j]);
    SameReady(deps, s2, s1, m, i, r2[m], r1[i]);
  }

  /** The dependencies alone determine the order. */
  lemma {:induction false} OrderDetermined(deps: seq<seq<nat>>, s1: seq<nat>, s2: seq<nat>, n: nat)
    requires TopologicalOrder(deps, s1) && TopologicalOrder(deps, s2)
    requires BreadthFirst(deps, s1) && BreadthFirst(deps, s2)
    requires n <= |s1|
    ensures n <= |s2| && s1[..n] == s2[..n]
  {
    hide ReachesCycle, BreadthFirst, NoDuplicates;
    if n > 0 {
      var m := n - 1;
      OrderDetermined(deps, s1, s2, m);
      SameHandles(deps, s1, s2, m);
      assert m < |s2| by { MoreLeft(deps, s1, s2, m); }
      SameHandles(deps, s2, s1, m);
      var j := PlaceAfter(s1, s2, m);
      var i := PlaceAfter(s2, s1, m);
      TurnsAgree(deps, s1, s2, m, i, j);
      assert s1[..n] == s1[..m] + [s1[m]] && s2[..n] == s2[..m] + [s2[m]];
    }
  }

  /** So any two breadth-first topological orders of the same dependencies are one. */
  lemma OneOrder(deps: seq<seq<nat>>, s1: seq<nat>, s2: seq<nat>)
    requires TopologicalOrder(deps, s1) && TopologicalOrder(deps, s2)
    requires BreadthFirst(deps, s1) && BreadthFirst(deps, s2)
    ensures s1 == s2
  {
    hide TopologicalOrder, BreadthFirst;
    OrderDetermined(deps, s1, s2, |s1|);
    OrderDetermined(deps, s2, s1, |s2|);
    assert s1[..|s1|] == s1 && s2[..|s2|] == s2;
  }

  lemma SameHandles(deps: seq<seq<nat>>, s1: seq<nat>, s2: seq<nat>, m: nat)
    requires TopologicalOrder(deps, s1) && TopologicalOrder(deps, s2) && m < |s1|
    ensures s1[m] in s2
  {
    hide ReachesCycle;
    assert s1[m] in s1;
  }

  lemma MoreLeft(deps: seq<seq<nat>>, s1: seq<nat>, s2: seq<nat>, m: nat)
    requires TopologicalOrder(deps, s1) && m < |s1| && m <= |s2| && s1[..m] == s2[..m] && s1[m] in s2
    ensures m < |s2|
  {
    var j := PlaceAfter(s1, s2, m);
  }

  function SaturatingSub(a: nat, b: nat): nat {
    if a < b then 0 else a - b
  }

  /** Handles that read nothing start the queue, in handle order. */
  method Roots(deps: seq<seq<nat>>, indegree: array<nat>) returns (queue: seq<nat>)
    requires indegree.Length == |deps| && forall h :: 0 <= h < |deps| ==> indegree[h] == |deps[h]|
    ensures NoDuplicates(queue) && forall x: nat :: x in queue <==> x < |deps| && indegree[x] == 0
    ensures InTurn(deps, queue, seq(|queue|, _ => 0))
  {
    hide InTurn;
    queue := [];
    EmptyTurn(deps);
    assert seq<nat>(0, _ => 0) == [];
    for h := 0 to |deps|
      invariant NoDuplicates(queue)
      invariant forall x: nat :: x in queue <==> x < h && indegree[x] == 0
      invariant InTurn(deps, queue, seq(|queue|, _ => 0))
    {
      if indegree[h] == 0 {
        assert |deps[h]| == 0;
        RootTurn(deps, queue, h);
        queue := queue + [h];
      }
    }
  }

  method Sort(deps: seq<seq<nat>>) returns (sorted: seq<nat>)
    requires WellFormed(deps)
    ensures TopologicalOrder(deps, sorted)
    ensures BreadthFirst(deps, sorted)
  {
    hide InTurn, Ascending;
    var adjacency, indegree := ReverseEdges(deps);
    var queue := Roots(deps, indegree);
    sorted := [];
    assert sorted + queue == queue;
    forall h | 0 <= h < |deps| ensures indegree[h] == Pending(deps[h], []) {
      PendingNone(deps[h]);
    }
    ghost var ready: seq<nat> := seq(|queue|, _ => 0);
    while queue != []
      invariant KahnState(deps, indegree[..], sorted, queue)
      invariant InTurn(deps, sorted + queue, ready) && forall i :: 0 <= i < |ready| ==> ready[i] <= |sorted|
      decreases |deps| - |sorted|
    {
      Pop(deps, adjacency, indegree[..], sorted, queue);
      TurnPopped(deps, adjacency, sorted, queue, ready);
      var handle := queue[0];
      ghost var before := sorted;
      queue := queue[1..];
      sorted := sorted + [handle];
      for k := 0 to |adjacency[handle]|
        invariant sorted == before + [handle]
        invariant ReleaseState(deps, adjacency, indegree[..], before, handle, queue, k)
        invariant TurnState(deps, adjacency, before, handle, queue, k, ready)
      {
        ChildPositive(deps, adjacency, indegree[..], before, handle, queue, k);
        ReleaseTurn(deps, adjacency, indegree[..], before, handle, queue, k, ready);
        Release(deps, adjacency, indegree[..], before, handle, queue, k);
        var child := adjacency[handle][k];
        assert indegree[child] > 0;
        ghost var was := indegree[..];
        indegree[child] := SaturatingSub(indegree[child], 1);
        assert indegree[..] == was[child := was[child] - 1];
        if indegree[child] == 0 {
          queue := queue + [child];
          ready := ready + [|before| + 1];
        }
      }
      Released(deps, adjacency, indegree[..], before, handle, queue);
      EmittedBound(deps, sorted, queue);
    }
    Exact(deps, indegree[..], sorted);
    assert sorted + queue == sorted;
    assert InTurn(deps, sorted, ready);
  }

  lemma EmittedBound(deps: seq<seq<nat>>, sorted: seq<nat>, queue: seq<nat>)
    requires NoDuplicates(sorted + queue)
    requires forall h :: h in sorted + queue ==> h < |deps|
    ensures |sorted| + |queue| <= |deps|
  {
    Pigeonhole(sorted + queue, |deps|);
  }

  /** Every handle that was not emitted waits for another one that was not. */
  ghost predicate Stuck(deps: seq<seq<nat>>, sorted: seq<nat>) {
    forall h: nat :: h < |deps| && h !in sorted ==> HasUnsortedDep(deps[h], sorted)
  }

  ghost predicate HasUnsortedDep(ds: seq<nat>, sorted: seq<nat>) {
    exists d :: d in ds && d !in sorted
  }

  /** An empty queue leaves exactly the handles that reach a cycle. */
  lemma Exact(deps: seq<seq<nat>>, indegree: seq<nat>, sorted: seq<nat>)
    requires WellFormed(deps) && KahnState(deps, indegree, sorted, [])
    ensures TopologicalOrder(deps, sorted)
  {
    assert sorted + [] == sorted;
    forall h: nat | h < |deps| && h !in sorted ensures HasUnsortedDep(deps[h], sorted) {
      PendingZero(deps[h], sorted);
    }
    forall h: nat | h < |deps| ensures h in sorted <==> !ReachesCycle(deps, h) {
      if h in sorted {
        SortedAcyclic(deps, sorted, h);
      } else {
        StuckCyclic(deps, sorted, h);
      }
    }
  }

  lemma SortedAcyclic(deps: seq<seq<nat>>, sorted: seq<nat>, h: nat)
    requires NoDuplicates(sorted) && DepsBefore(deps, sorted) && h in sorted
    ensures !ReachesCycle(deps, h)
  {
    forall w: seq<nat> | Walk(deps, w) && w[0] == h ensures NoDuplicates(w) {
      var p: nat :| p < |sorted| && sorted[p] == h;
      var ps := WalkDescends(deps, sorted, w, p);
    }
  }

  lemma StuckCyclic(deps: seq<seq<nat>>, sorted: seq<nat>, h: nat)
    requires WellFormed(deps) && h < |deps| && h !in sorted && Stuck(deps, sorted)
    ensures ReachesCycle(deps, h)
  {
    var w := StuckWalk(deps, sorted, h, |deps| + 1);
    if NoDuplicates(w) {
      Pigeonhole(w, |deps|);
      assert false;
    }
  }

  /** A walk from an emitted handle moves to strictly earlier positions. */
  lemma {:induction false} WalkDescends(deps: seq<seq<nat>>, sorted: seq<nat>, w: seq<nat>, p: nat)
    returns (ps: seq<nat>)
    requires NoDuplicates(sorted) && DepsBefore(deps, sorted)
    requires Walk(deps, w) && p < |sorted| && w[0] == sorted[p]
    ensures |ps| == |w| && ps[0] == p
    ensures forall i :: 0 <= i < |w| ==> ps[i] < |sorted| && w[i] == sorted[ps[i]]
    ensures forall i, j :: 0 <= i < j < |w| ==> ps[j] < ps[i]
    ensures NoDuplicates(w)
    decreases |w|
  {
    if |w| == 1 {
      return [p];
    }
    assert w[1] in deps[w[0]];
    assert w[1] in sorted[..p];
    var q :| 0 <= q < p && sorted[q] == w[1];
    var rest := w[1..];
    forall i | 0 <= i < |rest| - 1 ensures rest[i + 1] in deps[rest[i]] {
      assert w[i + 1 + 1] in deps[w[i + 1]];
    }
    var qs := WalkDescends(deps, sorted, rest, q);
    ps := [p] + qs;
    assert forall i :: 1 <= i < |w| ==> w[i] == rest[i - 1] && ps[i] == qs[i - 1];
  }

  /** Outside the emitted set one can walk forever. */
  lemma {:induction false} StuckWalk(deps: seq<seq<nat>>, sorted: seq<nat>, h: nat, len: nat) returns (w: seq<nat>)
    requires WellFormed(deps) && h < |deps| && h !in sorted && len > 0 && Stuck(deps, sorted)
    ensures Walk(deps, w) && w[0] == h && |w| == len
    decreases len
  {
    if len == 1 {
      return [h];
    }
    var d :| d in deps[h] && d !in sorted;
    var rest := StuckWalk(deps, sorted, d, len - 1);
    WalkFrom(deps, h, rest);
    w := [h] + rest;
  }

  lemma WalkFrom(deps: seq<seq<nat>>, h: nat, rest: seq<nat>)
    requires h < |deps| && Walk(deps, rest) && rest[0] in deps[h]
    ensures Walk(deps, [h] + rest)
  {
    var w := [h] + rest;
    forall i | 0 <= i < |w| - 1 ensures w[i + 1] in deps[w[i]] {
      if i > 0 {
        assert rest[i - 1 + 1] in deps[rest[i - 1]];
      }
    }
  }
}
