/** The generational arena behind planner state: class, abstract map, and how long a key stays dead. */
module SlotTable {
  import opened Common

  datatype SlotKey = SlotKey(index: nat, generation: u32)
  datatype Slot<T> = Slot(generation: u32, value: Option<T>)

  /** The table's value: what the class holds between calls. */
  datatype Table<T> = Table(slots: seq<Slot<T>>, free: seq<nat>, len: nat)

  function Bump(g: u32): u32 {
    (g + 1) % 0x1_0000_0000
  }

  ghost function Occupied<T>(slots: seq<Slot<T>>): set<nat> {
    set i: nat | i < |slots| && slots[i].value.Some?
  }

  /** The free list is exactly the vacant indices, without repeats, and len counts the live ones. */
  ghost predicate Consistent<T>(t: Table<T>) {
    && NoDuplicates(t.free)
    && (forall i: nat :: i in t.free <==> i < |t.slots| && t.slots[i].value.None?)
    && t.len == |Occupied(t.slots)|
  }

  ghost function Keys<T>(t: Table<T>): (keys: set<SlotKey>)
    ensures forall k :: k in keys <==> Lookup(t, k).Some?
  {
    var keys := set i | 0 <= i < |t.slots| && t.slots[i].value.Some? :: SlotKey(i, t.slots[i].generation);
    assert forall k :: Lookup(t, k).Some? ==> k == SlotKey(k.index, t.slots[k.index].generation);
    keys
  }

  function Lookup<T>(t: Table<T>, key: SlotKey): Option<T> {
    if key.index < |t.slots| && t.slots[key.index].generation == key.generation then t.slots[key.index].value else None
  }

  /** The abstract map a table stands for. */
  ghost function Entries<T>(t: Table<T>): map<SlotKey, T> {
    map k | k in Keys(t) :: Lookup(t, k).value
  }

  lemma EntriesLookup<T>(t: Table<T>, key: SlotKey)
    ensures Lookup(t, key) == if key in Entries(t) then Some(Entries(t)[key]) else None
  {}

  function InsertKey<T>(t: Table<T>): (k: SlotKey)
    requires forall i :: i in t.free ==> i < |t.slots|
    ensures t.free != [] ==> k.index == t.free[|t.free| - 1] && k.index in t.free
  {
    if t.free != [] then
      assert t.free[|t.free| - 1] in t.free;
      SlotKey(t.free[|t.free| - 1], t.slots[t.free[|t.free| - 1]].generation)
    else SlotKey(|t.slots|, 0)
  }

  function Inserted<T>(t: Table<T>, value: T): Table<T>
    requires forall i :: i in t.free ==> i < |t.slots|
  {
    var key := InsertKey(t);
    var slot := Slot(key.generation, Some(value));
    if t.free != [] then Table(t.slots[key.index := slot], t.free[..|t.free| - 1], t.len + 1)
    else Table(t.slots + [slot], [], t.len + 1)
  }

  function Removed<T>(t: Table<T>, key: SlotKey): Table<T> {
    if Lookup(t, key).Some? then
      Table(t.slots[key.index := Slot(Bump(key.generation), None)], t.free + [key.index],
            if t.len > 0 then t.len - 1 else 0)
    else t
  }

  function Vacated<T>(slot: Slot<T>): Slot<T> {
    if slot.value.Some? then Slot(Bump(slot.generation), None) else slot
  }

  function Emptied<T>(t: Table<T>): Table<T> {
    Table(seq(|t.slots|, i requires 0 <= i < |t.slots| => Vacated(t.slots[i])), seq(|t.slots|, i => i), 0)
  }

  function Updated<T>(t: Table<T>, key: SlotKey, value: T): Table<T>
    requires Lookup(t, key).Some?
  {
    t.(slots := t.slots[key.index := Slot(key.generation, Some(value))])
  }

  /** Insert adds one fresh key and changes nothing else. */
  lemma InsertEntries<T>(t: Table<T>, value: T)
    requires Consistent(t)
    ensures Consistent(Inserted(t, value))
    ensures InsertKey(t) !in Entries(t)
    ensures Entries(Inserted(t, value)) == Entries(t)[InsertKey(t) := value]
  {
    var t', k := Inserted(t, value), InsertKey(t);
    InsertConsistent(t, value);
    assert Others(t, t', k.index);
    OneEntry(t, t', k);
  }

  lemma InsertConsistent<T>(t: Table<T>, value: T)
    requires Consistent(t)
    ensures Consistent(Inserted(t, value))
    ensures InsertKey(t) !in Entries(t)
  {
    var t', k := Inserted(t, value), InsertKey(t);
    forall i: nat ensures i in t'.free <==> i in t.free && i != k.index {
      if t.free != [] {
        assert t.free == t'.free + [k.index];
        assert forall j :: 0 <= j < |t'.free| ==> t.free[j] == t'.free[j] && t.free[j] != t.free[|t'.free|];
      }
    }
    assert Occupied(t'.slots) == Occupied(t.slots) + {k.index};
  }

  /** Slots away from one index are untouched; slots past the old end did not exist. */
  ghost predicate Others<T>(t: Table<T>, t': Table<T>, index: nat) {
    && |t.slots| <= |t'.slots| <= (if index < |t.slots| then |t.slots| else index + 1)
    && index < |t'.slots|
    && (index < |t.slots| || index == |t.slots|)
    && forall i :: 0 <= i < |t.slots| && i != index ==> t'.slots[i] == t.slots[i]
  }

  lemma OtherLookup<T>(t: Table<T>, t': Table<T>, k: SlotKey, other: SlotKey)
    requires Others(t, t', k.index) && other != k
    requires k.index < |t.slots| && t.slots[k.index].value.Some? ==> k.generation == t.slots[k.index].generation
    requires Lookup(t', k).Some? ==> k.generation == t'.slots[k.index].generation
    requires Lookup(t', k).None? ==> t'.slots[k.index].value.None?
    ensures Lookup(t', other) == Lookup(t, other)
  {}

  /** Changing one slot changes the entries of that slot only. */
  lemma OneEntry<T>(t: Table<T>, t': Table<T>, k: SlotKey)
    requires Others(t, t', k.index)
    requires k.index < |t.slots| && t.slots[k.index].value.Some? ==> k.generation == t.slots[k.index].generation
    requires Lookup(t', k).Some? ==> k.generation == t'.slots[k.index].generation
    requires Lookup(t', k).None? ==> t'.slots[k.index].value.None?
    ensures Entries(t') == if Lookup(t', k).Some? then Entries(t)[k := Lookup(t', k).value] else Entries(t) - {k}
  {
    hide Lookup, Others, Entries;
    forall other: SlotKey | other != k ensures Lookup(t', other) == Lookup(t, other) {
      OtherLookup(t, t', k, other);
    }
    forall key: SlotKey
      ensures key in Entries(t) <==> Lookup(t, key).Some?
      ensures key in Entries(t) ==> Entries(t)[key] == Lookup(t, key).value
      ensures key in Entries(t') <==> Lookup(t', key).Some?
      ensures key in Entries(t') ==> Entries(t')[key] == Lookup(t', key).value
    {
      EntriesLookup(t, key);
      EntriesLookup(t', key);
    }
  }

  lemma UpdateEntries<T>(t: Table<T>, key: SlotKey, value: T)
    requires Consistent(t) && Lookup(t, key).Some?
    ensures Consistent(Updated(t, key, value))
    ensures Entries(Updated(t, key, value)) == Entries(t)[key := value]
  {
    var t' := Updated(t, key, value);
    assert Occupied(t'.slots) == Occupied(t.slots);
    OneEntry(t, t', key);
  }

  lemma RemoveEntries<T>(t: Table<T>, key: SlotKey)
    requires Consistent(t)
    ensures Consistent(Removed(t, key))
    ensures Entries(Removed(t, key)) == Entries(t) - {key}
  {
    var t' := Removed(t, key);
    if Lookup(t, key).Some? {
      assert key.index in Occupied(t.slots);
      assert Occupied(t'.slots) == Occupied(t.slots) - {key.index};
      OneEntry(t, t', key);
    } else {
      assert Entries(t) - {key} == Entries(t);
    }
  }

  lemma ClearEntries<T>(t: Table<T>)
    requires Consistent(t)
    ensures Consistent(Emptied(t)) && Entries(Emptied(t)) == map[]
  {
    var t' := Emptied(t);
    assert Occupied(t'.slots) == {};
    assert Entries(t').Keys == {};
    forall i: nat | i < |t.slots| ensures i in t'.free {
      assert t'.free[i] == i;
    }
  }

  /** Live values in slot order, as iter visits them. */
  function Live<T>(slots: seq<Slot<T>>): seq<T> {
    if slots == [] then []
    else
      var rest, last := Live(slots[..|slots| - 1]), slots[|slots| - 1];
      if last.value.Some? then rest + [last.value.value] else rest
  }

  // ---------------------------------------------------------------- stale keys

  datatype TableOp<T> = DoInsert(value: T) | DoRemove(key: SlotKey) | DoClear

  function Apply<T>(t: Table<T>, op: TableOp<T>): Table<T>
    requires forall i :: i in t.free ==> i < |t.slots|
  {
    match op
    case DoInsert(v) => Inserted(t, v)
    case DoRemove(k) => Removed(t, k)
    case DoClear => Emptied(t)
  }

  ghost function Run<T>(t: Table<T>, ops: seq<TableOp<T>>): (r: Table<T>)
    requires Consistent(t)
    ensures Consistent(r)
    decreases |ops|
  {
    if ops == [] then t
    else
      var before := Run(t, ops[..|ops| - 1]);
      ApplyConsistent(before, ops[|ops| - 1]);
      Apply(before, ops[|ops| - 1])
  }

  lemma ApplyConsistent<T>(t: Table<T>, op: TableOp<T>)
    requires Consistent(t)
    ensures Consistent(Apply(t, op))
  {
    match op
    case DoInsert(v) => InsertEntries(t, v);
    case DoRemove(k) => RemoveEntries(t, k);
    case DoClear => ClearEntries(t);
  }

  /** How often a run vacates slot i. */
  ghost function Vacations<T>(t: Table<T>, ops: seq<TableOp<T>>, i: nat): nat
    requires Consistent(t)
    decreases |ops|
  {
    if ops == [] then 0
    else
      var before, op := Run(t, ops[..|ops| - 1]), ops[|ops| - 1];
      Vacations(t, ops[..|ops| - 1], i) + if i < |before.slots| && Vacates(before, op, i) then 1 else 0
  }

  ghost predicate Vacates<T>(t: Table<T>, op: TableOp<T>, i: nat)
    requires i < |t.slots|
  {
    t.slots[i].value.Some? && (op.DoClear? || (op.DoRemove? && op.key == SlotKey(i, t.slots[i].generation)))
  }

  lemma GenerationStep<T>(t: Table<T>, op: TableOp<T>, i: nat)
    requires Consistent(t) && i < |t.slots|
    ensures |Apply(t, op).slots| >= |t.slots|
    ensures Apply(t, op).slots[i].generation ==
      if Vacates(t, op, i) then Bump(t.slots[i].generation) else t.slots[i].generation
  {}

  lemma BumpModulo(n: nat)
    ensures (n % 0x1_0000_0000 + 1) % 0x1_0000_0000 == (n + 1) % 0x1_0000_0000
  {}

  /** A slot's generation counts its vacations, modulo 2^32. */
  lemma {:induction false} GenerationCounts<T>(t: Table<T>, ops: seq<TableOp<T>>, i: nat)
    requires Consistent(t) && i < |t.slots|
    ensures |Run(t, ops).slots| >= |t.slots|
    ensures Run(t, ops).slots[i].generation == (t.slots[i].generation + Vacations(t, ops, i)) % 0x1_0000_0000
    decreases |ops|
  {
    hide Apply, Vacates, Consistent;
    if ops != [] {
      var init, op := ops[..|ops| - 1], ops[|ops| - 1];
      GenerationCounts(t, init, i);
      GenerationStep(Run(t, init), op, i);
      var g, v := t.slots[i].generation, Vacations(t, init, i);
      BumpModulo(g + v);
    }
  }

  /**
   * Exactly when an issued key resolves after any further run: its slot is occupied and was vacated
   * a multiple of 2^32 times since. Fewer vacations than that never bring a removed key back.
   */
  lemma StaleKey<T>(t: Table<T>, key: SlotKey, ops: seq<TableOp<T>>)
    requires Consistent(t) && key in Entries(t)
    ensures key in Entries(Run(t, ops)) <==>
      key.index in Occupied(Run(t, ops).slots) && Vacations(t, ops, key.index) % 0x1_0000_0000 == 0
    ensures 0 < Vacations(t, ops, key.index) < 0x1_0000_0000 ==> Lookup(Run(t, ops), key).None?
  {
    hide Run, Vacations;
    GenerationCounts(t, ops, key.index);
    var v, g := Vacations(t, ops, key.index), key.generation;
    WrapsBack(g, v);
    EntriesLookup(Run(t, ops), key);
  }

  lemma WrapsBack(g: u32, v: nat)
    ensures (g + v) % 0x1_0000_0000 == g <==> v % 0x1_0000_0000 == 0
  {
    var m := 0x1_0000_0000;
    var q, r := v / m, v % m;
    assert v == m * q + r;
    assert (g + v) % m == (g + r) % m by {
      assert g + v == m * q + (g + r);
    }
    assert (g + r) % m == if g + r < m then g + r else g + r - m;
  }

  // ---------------------------------------------------------------- the class

  class SlotTable<T> {
    var slots: seq<Slot<T>>
    var free: seq<nat>
    var len: nat

    ghost function Model(): Table<T>
      reads this
    {
      Table(slots, free, len)
    }

    ghost predicate Valid()
      reads this
    {
      Consistent(Model())
    }

    constructor ()
      ensures Valid() && Model() == Table([], [], 0) && Entries(Model()) == map[]
    {
      slots, free, len := [], [], 0;
      new;
      assert Occupied<T>([]) == {} && Keys(Model()) == {};
    }

    method Insert(value: T) returns (key: SlotKey)
      requires Valid()
      modifies this
      ensures Valid() && key == InsertKey(old(Model())) && key !in old(Entries(Model()))
      ensures Entries(Model()) == old(Entries(Model()))[key := value]
      ensures Model() == Inserted(old(Model()), value)
      ensures old(free) != [] ==>
        key.index == old(free)[|old(free)| - 1] && |slots| == |old(slots)| && free == old(free)[..|old(free)| - 1]
      ensures old(free) == [] ==> key == SlotKey(|old(slots)|, 0) && |slots| == |old(slots)| + 1
      ensures len == old(len) + 1
    {
      InsertEntries(Model(), value);
      if free != [] {
        var index := free[|free| - 1];
        assert index in free;
        free := free[..|free| - 1];
        key := SlotKey(index, slots[index].generation);
        slots := slots[index := Slot(slots[index].generation, Some(value))];
        len := len + 1;
        return;
      }
      key := SlotKey(|slots|, 0);
      slots := slots + [Slot(0, Some(value))];
      len := len + 1;
    }

    method Remove(key: SlotKey) returns (r: Option<T>)
      requires Valid()
      modifies this
      ensures Valid() && r == Lookup(old(Model()), key)
      ensures Entries(Model()) == old(Entries(Model())) - {key}
      ensures Model() == Removed(old(Model()), key)
      ensures r == if key in old(Entries(Model())) then Some(old(Entries(Model()))[key]) else None
      ensures r.Some? ==> free == old(free) + [key.index] && len == old(len) - 1
      ensures r.Some? ==>
        key.index < |slots| && slots[key.index] == Slot((key.generation + 1) % 0x1_0000_0000, None)
    {
      RemoveEntries(Model(), key);
      if key.index >= |slots| || slots[key.index].generation != key.generation {
        return None;
      }
      r := slots[key.index].value;
      if r.None? {
        return;
      }
      assert key.index in Occupied(slots);
      slots := slots[key.index := Slot(Bump(slots[key.index].generation), None)];
      free := free + [key.index];
      len := len - 1;
    }

    method Get(key: SlotKey) returns (r: Option<T>)
      requires Valid()
      ensures r == if key in Entries(Model()) then Some(Entries(Model())[key]) else None
    {
      if key.index >= |slots| || slots[key.index].generation != key.generation {
        return None;
      }
      r := slots[key.index].value;
    }

    /** get_mut followed by an assignment through it. */
    method Set(key: SlotKey, value: T) returns (found: bool)
      requires Valid()
      modifies this`slots
      ensures Valid() && found == (key in old(Entries(Model())))
      ensures Entries(Model()) == if found then old(Entries(Model()))[key := value] else old(Entries(Model()))
      ensures Model() == if found then Updated(old(Model()), key, value) else old(Model())
    {
      if key.index >= |slots| || slots[key.index].generation != key.generation || slots[key.index].value.None? {
        return false;
      }
      UpdateEntries(Model(), key, value);
      slots := slots[key.index := Slot(slots[key.index].generation, Some(value))];
      found := true;
    }

    method ClearReuse()
      requires Valid()
      modifies this
      ensures Valid() && Entries(Model()) == map[]
      ensures Model() == Emptied(old(Model()))
      ensures |slots| == |free| == |old(slots)| && len == 0
      ensures forall i :: 0 <= i < |slots| ==> free[i] == i && slots[i].value.None?
      ensures forall i :: 0 <= i < |slots| && old(slots)[i].value.None? ==>
        slots[i].generation == old(slots)[i].generation
      ensures forall i :: 0 <= i < |slots| && old(slots)[i].value.Some? ==>
        slots[i].generation == (old(slots)[i].generation + 1) % 0x1_0000_0000
    {
      ghost var was := Model();
      ClearEntries(was);
      free, len := [], 0;
      for index := 0 to |slots|
        invariant |slots| == |was.slots| && len == 0
        invariant free == seq(index, i => i)
        invariant forall i :: 0 <= i < index ==> slots[i] == Vacated(was.slots[i])
        invariant forall i :: index <= i < |slots| ==> slots[i] == was.slots[i]
      {
        if slots[index].value.Some? {
          slots := slots[index := Slot(Bump(slots[index].generation), None)];
        }
        free := free + [index];
      }
      assert slots == Emptied(was).slots;
    }

    /** The live values, in slot order. */
    method Iterate() returns (values: seq<T>)
      requires Valid()
      ensures values == Live(slots)
    {
      values := [];
      for index := 0 to |slots|
        invariant values == Live(slots[..index])
      {
        assert slots[..index + 1][..index] == slots[..index];
        if slots[index].value.Some? {
          values := values + [slots[index].value.value];
        }
      }
      assert slots[..|slots|] == slots;
    }
  }
}
