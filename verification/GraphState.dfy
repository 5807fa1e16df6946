/** The planner's mutable state: an arena of nodes plus a name index, standing for a map from id to node. */
module GraphState {
  import opened Common
  import opened Model
  import Arena = SlotTable

  type Graph = map<string, NodeSpec>

  datatype Change = UpsertNode(node: NodeSpec) | RemoveNode(id: string) | SetFinalField(final: string)

  /** The state's value: everything compile and the queries can depend on. */
  datatype State = State(dim: GraphDimension, finalField: string, nodes: Graph)

  function Changed(s: State, change: Change): State {
    match change
    case UpsertNode(node) => s.(nodes := s.nodes[node.id := node])
    case RemoveNode(id) => s.(nodes := s.nodes - {id})
    case SetFinalField(final) => s.(finalField := final)
  }

  function ChangedAll(s: State, changes: seq<Change>): State {
    if changes == [] then s else Changed(ChangedAll(s, changes[..|changes| - 1]), changes[|changes| - 1])
  }

  /** The node a change speaks about, if any. */
  function Subject(change: Change): Option<string> {
    match change
    case UpsertNode(node) => Some(node.id)
    case RemoveNode(id) => Some(id)
    case SetFinalField(_) => None
  }

  /** changes[k] is the last change that names id. */
  predicate LastNaming(changes: seq<Change>, id: string, k: nat) {
    && k < |changes| && Subject(changes[k]) == Some(id)
    && forall j :: k < j < |changes| ==> Subject(changes[j]) != Some(id)
  }

  /** No change names id. */
  predicate NeverNamed(changes: seq<Change>, id: string) {
    forall j :: 0 <= j < |changes| ==> Subject(changes[j]) != Some(id)
  }

  /** changes[k] is the last change of the final field. */
  predicate LastFinal(changes: seq<Change>, k: nat) {
    && k < |changes| && changes[k].SetFinalField?
    && forall j :: k < j < |changes| ==> !changes[j].SetFinalField?
  }

  predicate FinalNeverSet(changes: seq<Change>) {
    forall j :: 0 <= j < |changes| ==> !changes[j].SetFinalField?
  }

  /** The nodes a change list leaves: the last change that names an id decides, or nothing changed. */
  ghost predicate NodesDecided(was: Graph, changes: seq<Change>, now: Graph) {
    && (forall id :: NeverNamed(changes, id) ==> SameAt(was, now, id))
    && (forall id, k: nat :: LastNaming(changes, id, k) ==> DecidedAt(changes[k], now, id))
  }

  predicate SameAt(was: Graph, now: Graph, id: string) {
    (id in now <==> id in was) && (id in was ==> now[id] == was[id])
  }

  predicate DecidedAt(change: Change, now: Graph, id: string) {
    if change.UpsertNode? then id in now && now[id] == change.node else id !in now
  }

  /** The state a change list leaves, without replaying it. */
  ghost predicate LastChangesHold(was: State, changes: seq<Change>, now: State) {
    && now.dim == was.dim && NodesDecided(was.nodes, changes, now.nodes)
    && (FinalNeverSet(changes) ==> now.finalField == was.finalField)
    && (forall k: nat :: LastFinal(changes, k) ==> now.finalField == changes[k].final)
  }

  lemma {:induction false} LastNodeChangeWins(s: State, changes: seq<Change>)
    ensures ChangedAll(s, changes).dim == s.dim
    ensures NodesDecided(s.nodes, changes, ChangedAll(s, changes).nodes)
  {
    if changes != [] {
      var init, n := changes[..|changes| - 1], |changes| - 1;
      LastNodeChangeWins(s, init);
      var now := ChangedAll(s, changes);
      forall id | NeverNamed(changes, id) ensures SameAt(s.nodes, now.nodes, id) {
        assert Subject(changes[n]) != Some(id) && NeverNamed(init, id);
      }
      forall id, k: nat | LastNaming(changes, id, k) ensures DecidedAt(changes[k], now.nodes, id) {
        if k < n {
          assert Subject(changes[n]) != Some(id) && LastNaming(init, id, k);
        }
      }
    }
  }

  lemma {:induction false} LastFinalWins(s: State, changes: seq<Change>)
    ensures FinalNeverSet(changes) ==> ChangedAll(s, changes).finalField == s.finalField
    ensures forall k: nat :: LastFinal(changes, k) ==> ChangedAll(s, changes).finalField == changes[k].final
  {
    if changes != [] {
      var init, n := changes[..|changes| - 1], |changes| - 1;
      LastFinalWins(s, init);
      assert FinalNeverSet(changes) ==> FinalNeverSet(init) && !changes[n].SetFinalField?;
      forall k: nat | LastFinal(changes, k) ensures ChangedAll(s, changes).finalField == changes[k].final {
        if k < n {
          assert LastFinal(init, k) && !changes[n].SetFinalField?;
        }
      }
    }
  }

  /** Applying changes in order is letting the last change of every id, and of the final field, decide. */
  lemma LastChangeWins(s: State, changes: seq<Change>)
    ensures LastChangesHold(s, changes, ChangedAll(s, changes))
  {
    LastNodeChangeWins(s, changes);
    LastFinalWins(s, changes);
  }

  /** A later node of the same id wins. */
  function NodesOf(nodes: seq<NodeSpec>): Graph {
    if nodes == [] then map[] else NodesOf(nodes[..|nodes| - 1])[nodes[|nodes| - 1].id := nodes[|nodes| - 1]]
  }

  predicate LastListed(nodes: seq<NodeSpec>, k: nat) {
    k < |nodes| && forall j :: k < j < |nodes| ==> nodes[j].id != nodes[k].id
  }

  ghost predicate NamesOne(nodes: seq<NodeSpec>, id: string) {
    exists i :: 0 <= i < |nodes| && nodes[i].id == id
  }

  /** Exactly the listed ids, each with the last node listed under it. */
  ghost predicate LastNodesHold(nodes: seq<NodeSpec>, g: Graph) {
    && (forall id :: id in g <==> NamesOne(nodes, id))
    && (forall k: nat :: LastListed(nodes, k) ==> nodes[k].id in g && g[nodes[k].id] == nodes[k])
  }

  lemma NamesSnoc(nodes: seq<NodeSpec>, id: string)
    requires nodes != []
    ensures NamesOne(nodes, id) <==> NamesOne(nodes[..|nodes| - 1], id) || nodes[|nodes| - 1].id == id
  {
    var init := nodes[..|nodes| - 1];
    if NamesOne(init, id) {
      var i :| 0 <= i < |init| && init[i].id == id;
      assert nodes[i].id == id;
    }
  }

  lemma {:induction false} LastNodeWins(nodes: seq<NodeSpec>)
    ensures LastNodesHold(nodes, NodesOf(nodes))
  {
    hide NamesOne;
    if nodes == [] {
      assert forall id :: !NamesOne(nodes, id) by { NoNames(nodes); }
    } else {
      var init, n := nodes[..|nodes| - 1], |nodes| - 1;
      LastNodeWins(init);
      forall id ensures NamesOne(nodes, id) <==> NamesOne(init, id) || nodes[n].id == id {
        NamesSnoc(nodes, id);
      }
      forall k: nat | LastListed(nodes, k)
        ensures nodes[k].id in NodesOf(nodes) && NodesOf(nodes)[nodes[k].id] == nodes[k]
      {
        if k < n {
          assert LastListed(init, k) && nodes[n].id != nodes[k].id && init[k] == nodes[k];
        }
      }
    }
  }

  lemma NoNames(nodes: seq<NodeSpec>)
    requires nodes == []
    ensures forall id :: !NamesOne(nodes, id)
  {}

  /** nodes lists every node of g once, under its own id. */
  ghost predicate Lists(nodes: seq<NodeSpec>, g: Graph) {
    && (forall i, j :: 0 <= i < j < |nodes| ==> nodes[i].id != nodes[j].id)
    && (forall i :: 0 <= i < |nodes| ==> nodes[i].id in g && g[nodes[i].id] == nodes[i])
    && (forall id :: id in g ==> exists i :: 0 <= i < |nodes| && nodes[i].id == id)
  }

  /** The name index and the arena agree in both directions. */
  ghost predicate IndexAgrees(entries: map<Arena.SlotKey, NodeSpec>, keys: map<string, Arena.SlotKey>) {
    && (forall id :: id in keys ==> keys[id] in entries && entries[keys[id]].id == id)
    && (forall k :: k in entries ==> entries[k].id in keys && keys[entries[k].id] == k)
  }

  ghost function Named(entries: map<Arena.SlotKey, NodeSpec>, keys: map<string, Arena.SlotKey>): Graph
    requires IndexAgrees(entries, keys)
  {
    map id | id in keys :: entries[keys[id]]
  }

  lemma KeyResolves(entries: map<Arena.SlotKey, NodeSpec>, keys: map<string, Arena.SlotKey>, id: string)
    requires IndexAgrees(entries, keys) && id in keys
    ensures keys[id] in entries
  {}

  lemma NamedUpdate(entries: map<Arena.SlotKey, NodeSpec>, keys: map<string, Arena.SlotKey>, node: NodeSpec)
    requires IndexAgrees(entries, keys) && node.id in keys
    ensures IndexAgrees(entries[keys[node.id] := node], keys)
    ensures Named(entries[keys[node.id] := node], keys) == Named(entries, keys)[node.id := node]
  {}

  lemma NamedInsert(
    entries: map<Arena.SlotKey, NodeSpec>, keys: map<string, Arena.SlotKey>, key: Arena.SlotKey, node: NodeSpec)
    requires IndexAgrees(entries, keys) && node.id !in keys && key !in entries
    ensures IndexAgrees(entries[key := node], keys[node.id := key])
    ensures Named(entries[key := node], keys[node.id := key]) == Named(entries, keys)[node.id := node]
  {}

  lemma NamedRemove(entries: map<Arena.SlotKey, NodeSpec>, keys: map<string, Arena.SlotKey>, id: string)
    requires IndexAgrees(entries, keys) && id in keys
    ensures IndexAgrees(entries - {keys[id]}, keys - {id})
    ensures Named(entries - {keys[id]}, keys - {id}) == Named(entries, keys) - {id}
  {}

  lemma EmptyIndex()
    ensures IndexAgrees(map[], map[]) && Named(map[], map[]) == map[]
  {}

  class FastNoiseState {
    var dimension: GraphDimension
    var finalField: string
    const nodes: Arena.SlotTable<NodeSpec>
    var nodeKeys: map<string, Arena.SlotKey>

    ghost predicate Valid()
      reads this, nodes
    {
      nodes.Valid() && IndexAgrees(Arena.Entries(nodes.Model()), nodeKeys)
    }

    ghost function Value(): State
      reads this, nodes
      requires Valid()
    {
      State(dimension, finalField, Named(Arena.Entries(nodes.Model()), nodeKeys))
    }

    constructor FromSpec(dimension: GraphDimension, finalField: string, specNodes: seq<NodeSpec>)
      ensures Valid() && fresh(nodes)
      ensures Value() == State(dimension, finalField, NodesOf(specNodes))
      ensures LastNodesHold(specNodes, Value().nodes)
    {
      this.dimension, this.finalField, nodeKeys := dimension, finalField, map[];
      nodes := new Arena.SlotTable<NodeSpec>();
      new;
      ResetFromSpec(dimension, finalField, specNodes);
    }

    method ResetFromSpec(dimension: GraphDimension, finalField: string, specNodes: seq<NodeSpec>)
      requires Valid()
      modifies this, nodes
      ensures Valid()
      ensures Value() == State(dimension, finalField, NodesOf(specNodes))
      ensures LastNodesHold(specNodes, Value().nodes)
    {
      hide IndexAgrees, Named, Arena.Entries, Arena.Emptied, Arena.Consistent, LastNodesHold;
      LastNodeWins(specNodes);
      EmptyIndex();
      this.dimension, this.finalField := dimension, finalField;
      nodes.ClearReuse();
      nodeKeys := map[];
      UpsertAll(specNodes);
    }

    method UpsertAll(specNodes: seq<NodeSpec>)
      requires Valid() && Value().nodes == map[]
      modifies this`nodeKeys, nodes
      ensures Valid()
      ensures Value() == old(Value()).(nodes := NodesOf(specNodes))
    {
      hide Arena.Entries, Arena.Consistent, Named, IndexAgrees;
      for i := 0 to |specNodes|
        invariant Valid()
        invariant Value() == old(Value()).(nodes := NodesOf(specNodes[..i]))
      {
        Upsert(specNodes[i]);
        assert specNodes[..i + 1][..i] == specNodes[..i];
      }
      assert specNodes[..|specNodes|] == specNodes;
    }

    method Upsert(node: NodeSpec)
      requires Valid()
      modifies this`nodeKeys, nodes
      ensures Valid()
      ensures Value() == old(Value()).(nodes := old(Value()).nodes[node.id := node])
    {
      hide Arena.Entries, Arena.Consistent, Named, IndexAgrees, Arena.Inserted, Arena.Updated;
      ghost var entries := Arena.Entries(nodes.Model());
      if node.id in nodeKeys {
        NamedUpdate(entries, nodeKeys, node);
        assert nodeKeys[node.id] in entries by { KeyResolves(entries, nodeKeys, node.id); }
        var replaced := nodes.Set(nodeKeys[node.id], node);
        if replaced {
          return;
        }
      }
      var key := nodes.Insert(node);
      NamedInsert(entries, nodeKeys, key, node);
      nodeKeys := nodeKeys[node.id := key];
    }

    method Remove(id: string)
      requires Valid()
      modifies this`nodeKeys, nodes
      ensures Valid()
      ensures Value() == old(Value()).(nodes := old(Value()).nodes - {id})
    {
      hide Arena.Entries, Arena.Consistent, IndexAgrees, Arena.Removed;
      if id in nodeKeys {
        NamedRemove(Arena.Entries(nodes.Model()), nodeKeys, id);
        var key := nodeKeys[id];
        nodeKeys := nodeKeys - {id};
        var gone := nodes.Remove(key);
      } else {
        assert Value().nodes - {id} == Value().nodes;
      }
    }

    method Apply(changes: seq<Change>)
      requires Valid()
      modifies this, nodes
      ensures Valid()
      ensures Value() == ChangedAll(old(Value()), changes)
      ensures LastChangesHold(old(Value()), changes, Value())
    {
      hide LastChangesHold;
      LastChangeWins(Value(), changes);
      for i := 0 to |changes|
        invariant Valid()
        invariant Value() == ChangedAll(old(Value()), changes[..i])
      {
        match changes[i] {
          case UpsertNode(node) => Upsert(node);
          case RemoveNode(id) => Remove(id);
          case SetFinalField(final) => finalField := final;
        }
        assert changes[..i + 1][..i] == changes[..i];
      }
      assert changes[..|changes|] == changes;
    }

    /** The nodes compile sees: every live one once, in slot order. */
    method Collect() returns (list: seq<NodeSpec>)
      requires Valid()
      ensures Lists(list, Value().nodes)
    {
      list := nodes.Iterate();
      LiveLists(nodes.Model(), nodeKeys);
    }
  }

  /** The slots Live visits, in order. */
  ghost function LiveIndices<T>(slots: seq<Arena.Slot<T>>): (at: seq<nat>)
    ensures forall i :: 0 <= i < |at| ==> at[i] < |slots|
    ensures forall i, j :: 0 <= i < j < |at| ==> at[i] < at[j]
    ensures forall k: nat :: k < |slots| && slots[k].value.Some? ==> k in at
  {
    if slots == [] then []
    else
      var init := slots[..|slots| - 1];
      var rest := LiveIndices(init);
      assert forall k: nat :: k < |init| && slots[k].value.Some? ==> init[k].value.Some? && k in rest;
      if slots[|slots| - 1].value.Some? then rest + [|slots| - 1] else rest
  }

  lemma {:induction false} LiveAt<T>(slots: seq<Arena.Slot<T>>)
    ensures |LiveIndices(slots)| == |Arena.Live(slots)|
    ensures forall i :: 0 <= i < |LiveIndices(slots)| ==>
      slots[LiveIndices(slots)[i]].value == Some(Arena.Live(slots)[i])
    decreases |slots|
  {
    if slots != [] {
      LiveAt(slots[..|slots| - 1]);
    }
  }

  /** The i-th live value under its own id. */
  lemma LiveNamed(t: Arena.Table<NodeSpec>, keys: map<string, Arena.SlotKey>, i: nat)
    requires IndexAgrees(Arena.Entries(t), keys) && i < |Arena.Live(t.slots)|
    ensures var node, at := Arena.Live(t.slots)[i], LiveIndices(t.slots);
      && |at| == |Arena.Live(t.slots)| && node.id in keys
      && keys[node.id] == Arena.SlotKey(at[i], t.slots[at[i]].generation)
      && Named(Arena.Entries(t), keys)[node.id] == node
  {
    LiveAt(t.slots);
    var at := LiveIndices(t.slots);
    var k := Arena.SlotKey(at[i], t.slots[at[i]].generation);
    assert k in Arena.Entries(t) && Arena.Entries(t)[k] == Arena.Live(t.slots)[i];
  }

  lemma NamedLive(t: Arena.Table<NodeSpec>, keys: map<string, Arena.SlotKey>, id: string) returns (i: nat)
    requires IndexAgrees(Arena.Entries(t), keys) && id in keys
    ensures i < |Arena.Live(t.slots)| && Arena.Live(t.slots)[i].id == id
  {
    var k, at := keys[id], LiveIndices(t.slots);
    assert k in Arena.Entries(t);
    assert k.index in at;
    LiveAt(t.slots);
    i :| 0 <= i < |at| && at[i] == k.index;
  }

  lemma LiveLists(t: Arena.Table<NodeSpec>, keys: map<string, Arena.SlotKey>)
    requires IndexAgrees(Arena.Entries(t), keys)
    ensures Lists(Arena.Live(t.slots), Named(Arena.Entries(t), keys))
  {
    hide IndexAgrees, Arena.Entries, Arena.Live, LiveIndices;
    var nodes, g, at := Arena.Live(t.slots), Named(Arena.Entries(t), keys), LiveIndices(t.slots);
    forall i | 0 <= i < |nodes|
      ensures |at| == |nodes| && nodes[i].id in keys && keys[nodes[i].id].index == at[i]
      ensures nodes[i].id in g && g[nodes[i].id] == nodes[i]
    {
      LiveNamed(t, keys, i);
    }
    forall id | id in g ensures exists i :: 0 <= i < |nodes| && nodes[i].id == id {
      var i := NamedLive(t, keys, id);
    }
  }

  /** updated_state: the changes are applied to a copy, the original is untouched. */
  method UpdatedState(state: FastNoiseState, changes: seq<Change>) returns (next: FastNoiseState)
    requires state.Valid()
    ensures fresh(next) && fresh(next.nodes) && next.Valid()
    ensures next.Value() == ChangedAll(state.Value(), changes)
    ensures LastChangesHold(state.Value(), changes, next.Value())
  {
    hide LastChangesHold;
    next := new FastNoiseState.FromSpec(state.dimension, state.finalField, []);
    next.nodes.slots, next.nodes.free, next.nodes.len := state.nodes.slots, state.nodes.free, state.nodes.len;
    next.nodeKeys := state.nodeKeys;
    assert next.nodes.Model() == state.nodes.Model();
    next.Apply(changes);
  }
}
