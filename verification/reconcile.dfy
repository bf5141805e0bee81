/**
 * The relation reconciliation loops that the SQLA type supports emit, run
 * on a destination collection object, and the loops that the dict and
 * object type supports emit for `relation_copy`.
 *
 * The child serializer that the loops call is opaque: `plan(item, prior, c)`
 * returns the destination element it produced for `item`, given the
 * destination element it is asked to fill (`None`: create one), and the new
 * run state `c` (the cache and whatever else it updates). Its in-place update
 * of an existing element is invisible here; only its identity is tracked.
 */
module Reconcile {
  import opened Wrappers
  import opened Sequences
  import opened PyCollections
  import opened PyValues

  // ---- Generation time: the collection kind ----

  datatype PyClass = ListClass | SetClass | OtherClass(name: string)

  datatype Insertion = Append | Add

  /** The insertion the merge loop emits for a collection class, or the generation-time error. */
  function InsertionFor(c: PyClass): (r: Result<Insertion, PyError>)
    ensures r == Ok(Append) <==> c == ListClass
    ensures r == Ok(Add) <==> c == SetClass
    ensures r.Err? <==> c.OtherClass?
    ensures r.Err? ==> r.error == UnrecognizedCollection
  {
    match c
    case ListClass => Ok(Append)
    case SetClass => Ok(Add)
    case OtherClass(_) => Err(UnrecognizedCollection)
  }

  /**
   * The class `relation_copy` hands to the merge generator, from the mapped
   * relation's `collection_class`: set exactly for `set`, a list otherwise,
   * so the "Unrecognized collection type" error is never raised from there.
   */
  function RelationCollectionClass(mapped: PyClass): (c: PyClass)
    ensures c == SetClass <==> mapped == SetClass
    ensures InsertionFor(c).Ok?
  {
    if mapped == SetClass then SetClass else ListClass
  }

  // ---- The key-diff merge (dest_inst_keys) ----

  /** Key functions on both sides, the seed of a new element, and the child serializer. */
  datatype KeyedPlan<!S, K, !E, !C> = KeyedPlan(
    destKey: E -> K,
    sourceKey: S -> K,
    seed: (S, C) -> Option<E>,
    plan: (S, Option<E>, C) -> (E, C))

  /**
   * The pre-pass `dest_inst_keys[key(item)] = item` over the destination list:
   * a later element with the same key replaces an earlier one.
   */
  function KeyIndex<E(==), K(==)>(dest: seq<E>, key: E -> K): (idx: map<K, E>)
    ensures forall k :: k in idx ==> idx[k] in dest && key(idx[k]) == k
    ensures forall i :: 0 <= i < |dest| ==> key(dest[i]) in idx
    ensures forall i :: 0 <= i < |dest| && (forall j :: i < j < |dest| ==> key(dest[j]) != key(dest[i]))
              ==> idx[key(dest[i])] == dest[i]
  {
    if dest == [] then map[]
    else
      var last := dest[|dest| - 1];
      var idx := KeyIndex(dest[..|dest| - 1], key);
      assert forall i :: 0 <= i < |dest| - 1 ==> dest[..|dest| - 1][i] == dest[i];
      idx[key(last) := last]
  }

  /** What `dest_inst_keys` holds for a destination set, whichever order the set is walked in. */
  ghost predicate IsKeyIndex<E, K>(idx: map<K, E>, xs: set<E>, key: E -> K)
  {
    && (forall k :: k in idx ==> idx[k] in xs && key(idx[k]) == k)
    && (forall x :: x in xs ==> key(x) in idx)
  }

  /** The state of the source pass: the keys not yet matched, the elements created, the elements merged into. */
  datatype KeyedPass<K, E, C> = KeyedPass(index: map<K, E>, created: seq<E>, merged: seq<E>, state: C)

  /**
   * One source item: a key still in the map merges the item into that element
   * and deletes the key; any other key produces a new element from the seed.
   */
  function KeyedStep<S, K(==), E, C>(p: KeyedPass<K, E, C>, item: S, h: KeyedPlan<S, K, E, C>): KeyedPass<K, E, C>
  {
    var k := h.sourceKey(item);
    if k in p.index then
      var out := h.plan(item, Some(p.index[k]), p.state);
      KeyedPass(p.index - {k}, p.created, p.merged + [p.index[k]], out.1)
    else
      var out := h.plan(item, h.seed(item, p.state), p.state);
      KeyedPass(p.index, p.created + [out.0], p.merged, out.1)
  }

  function KeyedRun<S, K(==), E, C>(src: seq<S>, h: KeyedPlan<S, K, E, C>, index0: map<K, E>, c0: C): KeyedPass<K, E, C>
  {
    if src == [] then KeyedPass(index0, [], [], c0)
    else KeyedStep(KeyedRun(src[..|src| - 1], h, index0, c0), src[|src| - 1], h)
  }

  function SourceKeys<S, K, E, C>(src: seq<S>, h: KeyedPlan<S, K, E, C>): set<K>
  {
    set i | 0 <= i < |src| :: h.sourceKey(src[i])
  }

  ghost predicate WellKeyed<K, E>(index: map<K, E>, key: E -> K)
  {
    forall k :: k in index ==> key(index[k]) == k
  }

  /**
   * After the source pass the map holds exactly the destination keys that no
   * source item carries, with their original elements; every element merged
   * into was in the map under a key some source item carries; every source
   * item either merged or created.
   */
  lemma {:induction false} KeyedRunOutcome<S, K, E, C>(src: seq<S>, h: KeyedPlan<S, K, E, C>, index0: map<K, E>, c0: C)
    ensures var run := KeyedRun(src, h, index0, c0);
      && run.index.Keys == index0.Keys - SourceKeys(src, h)
      && (forall k :: k in run.index ==> run.index[k] == index0[k])
      && (forall e :: e in run.merged ==> exists k :: k in index0 && k in SourceKeys(src, h) && e == index0[k])
      && (forall k :: k in index0 && k in SourceKeys(src, h) ==> index0[k] in run.merged)
      && |run.merged| + |run.created| == |src|
  {
    if src != [] {
      var n := |src| - 1;
      var prefix := src[..n];
      KeyedRunOutcome(prefix, h, index0, c0);
      assert SourceKeys(src, h) == SourceKeys(prefix, h) + {h.sourceKey(src[n])} by {
        forall k | k in SourceKeys(src, h) ensures k in SourceKeys(prefix, h) + {h.sourceKey(src[n])} {
          var i :| 0 <= i < |src| && h.sourceKey(src[i]) == k;
          if i < n { assert prefix[i] == src[i]; }
        }
        forall k | k in SourceKeys(prefix, h) ensures k in SourceKeys(src, h) {
          var i :| 0 <= i < |prefix| && h.sourceKey(prefix[i]) == k;
          assert src[i] == prefix[i];
        }
      }
    }
  }

  /** An element merged into is never among the leftovers, so it stays in the relation. */
  lemma MergedAreNotLeftover<S, K, E, C>(src: seq<S>, h: KeyedPlan<S, K, E, C>, index0: map<K, E>, c0: C)
    requires WellKeyed(index0, h.destKey)
    ensures var run := KeyedRun(src, h, index0, c0);
      forall e :: e in run.merged ==> e !in run.index.Values
  {
    var run := KeyedRun(src, h, index0, c0);
    KeyedRunOutcome(src, h, index0, c0);
  }

  /** The pre-pass loop building `dest_inst_keys` from a destination list. */
  method BuildKeyIndex<E(==), K(==)>(items: seq<E>, key: E -> K) returns (index: map<K, E>)
    ensures index == KeyIndex(items, key)
  {
    index := map[];
    var i := 0;
    while i < |items|
      invariant 0 <= i <= |items|
      invariant index == KeyIndex(items[..i], key)
    {
      assert items[..i + 1][..i] == items[..i];
      index := index[key(items[i]) := items[i]];
      i := i + 1;
    }
    assert items[..i] == items;
  }

  /** `for inst in leftovers: dest.remove(inst)`, whatever order the leftovers come in. */
  method RemoveEach<E(==)>(dest: PyList<E>, leftovers: set<E>)
    requires forall x :: x in leftovers ==> x in dest.items
    modifies dest
    ensures dest.items == DropFirstOf(old(dest.items), leftovers)
  {
    ghost var start := dest.items;
    var pending := leftovers;
    ghost var removed: set<E> := {};
    DropFirstOfNothing(start);
    while pending != {}
      invariant pending !! removed && pending + removed == leftovers
      invariant dest.items == DropFirstOf(start, removed)
      decreases pending
    {
      var inst :| inst in pending;
      DropFirstOfStep(start, removed, inst);
      var found := dest.Remove(inst);
      assert found;  // the emitted `remove` never raises ValueError
      pending := pending - {inst};
      removed := removed + {inst};
    }
  }

  /**
   * `gen_merge_relation_sqla2` / montgomery's `gen_merge_relation_sqla`, list
   * container: pre-pass, source pass appending each new element, then
   * `remove` of every element whose key is still in the map.
   */
  method MergeKeyedIntoList<S, K(==), E(==), C>(dest: PyList<E>, src: seq<S>, h: KeyedPlan<S, K, E, C>, c0: C)
    returns (c: C)
    modifies dest
    ensures var run := KeyedRun(src, h, KeyIndex(old(dest.items), h.destKey), c0);
      && dest.items == DropFirstOf(old(dest.items) + run.created, run.index.Values)
      && c == run.state
  {
    var index := BuildKeyIndex(dest.items, h.destKey);
    ghost var index0 := index;
    ghost var before := dest.items;

    c := c0;
    var j := 0;
    while j < |src|
      invariant 0 <= j <= |src|
      invariant index == KeyedRun(src[..j], h, index0, c0).index
      invariant c == KeyedRun(src[..j], h, index0, c0).state
      invariant dest.items == before + KeyedRun(src[..j], h, index0, c0).created
    {
      assert src[..j + 1][..j] == src[..j];
      var item := src[j];
      var k := h.sourceKey(item);
      if k in index {
        var out := h.plan(item, Some(index[k]), c);
        c := out.1;
        index := index - {k};
      } else {
        var out := h.plan(item, h.seed(item, c), c);
        c := out.1;
        dest.Append(out.0);
      }
      j := j + 1;
    }
    assert src[..j] == src;
    KeyedRunOutcome(src, h, index0, c0);
    forall x | x in index.Values ensures x in dest.items {
      var k :| k in index && index[k] == x;
      assert x == index0[k] && x in before;
    }
    RemoveEach(dest, index.Values);
  }

  /**
   * The same merge into a set container: the pre-pass walks the set in
   * whatever order it iterates (`index0`), new elements are `add`ed.
   */
  method MergeKeyedIntoSet<S, K(==), E(==), C>(dest: PySet<E>, src: seq<S>, h: KeyedPlan<S, K, E, C>, c0: C)
    returns (c: C, ghost index0: map<K, E>)
    modifies dest
    ensures IsKeyIndex(index0, old(dest.elems), h.destKey)
    ensures var run := KeyedRun(src, h, index0, c0);
      && dest.elems == (old(dest.elems) + Elems(run.created)) - run.index.Values
      && c == run.state
  {
    var index: map<K, E> := map[];
    var pending := dest.elems;
    while pending != {}
      invariant pending <= dest.elems && dest.elems == old(dest.elems)
      invariant IsKeyIndex(index, dest.elems - pending, h.destKey)
      decreases pending
    {
      var e :| e in pending;
      index := index[h.destKey(e) := e];
      pending := pending - {e};
    }
    assert dest.elems - pending == dest.elems;
    index0 := index;
    ghost var before := dest.elems;

    c := c0;
    var j := 0;
    while j < |src|
      invariant 0 <= j <= |src|
      invariant index == KeyedRun(src[..j], h, index0, c0).index
      invariant c == KeyedRun(src[..j], h, index0, c0).state
      invariant dest.elems == before + Elems(KeyedRun(src[..j], h, index0, c0).created)
    {
      assert src[..j + 1][..j] == src[..j];
      var item := src[j];
      var k := h.sourceKey(item);
      if k in index {
        var out := h.plan(item, Some(index[k]), c);
        c := out.1;
        index := index - {k};
      } else {
        var out := h.plan(item, h.seed(item, c), c);
        c := out.1;
        dest.Add(out.0);
      }
      j := j + 1;
    }
    assert src[..j] == src;
    KeyedRunOutcome(src, h, index0, c0);

    ghost var afterPass := dest.elems;
    var leftovers := index.Values;
    while leftovers != {}
      invariant leftovers <= index.Values
      invariant dest.elems == afterPass - (index.Values - leftovers)
      decreases leftovers
    {
      var inst :| inst in leftovers;
      var k :| k in index && index[k] == inst;
      assert inst == index0[k] && inst in before;
      var found := dest.Remove(inst);
      assert found;  // the emitted `remove` never raises KeyError
      leftovers := leftovers - {inst};
    }
  }

  /** montgomery's merge: a new element is always produced from `None`. */
  function NoSeed<S, C, E>(item: S, c: C): Option<E>
  {
    None
  }

  method MergeUnseededIntoList<S, K(==), E(==), C>(
    dest: PyList<E>, src: seq<S>, destKey: E -> K, sourceKey: S -> K, plan: (S, Option<E>, C) -> (E, C), c0: C)
    returns (c: C)
    modifies dest
    ensures var run := KeyedRun(src, KeyedPlan(destKey, sourceKey, NoSeed<S, C, E>, plan), KeyIndex(old(dest.items), destKey), c0);
      && dest.items == DropFirstOf(old(dest.items) + run.created, run.index.Values)
      && c == run.state
  {
    c := MergeKeyedIntoList(dest, src, KeyedPlan(destKey, sourceKey, NoSeed<S, C, E>, plan), c0);
  }

  /**
   * On a relation holding each instance once, the leftovers go and the new
   * elements follow the survivors, in source order.
   */
  lemma KeyedListResult<S, K, E, C>(dest: seq<E>, src: seq<S>, h: KeyedPlan<S, K, E, C>, c0: C)
    requires NoDup(dest)
    ensures var run := KeyedRun(src, h, KeyIndex(dest, h.destKey), c0);
      DropFirstOf(dest + run.created, run.index.Values) == Without(dest, run.index.Values) + run.created
  {
    var index0 := KeyIndex(dest, h.destKey);
    var run := KeyedRun(src, h, index0, c0);
    KeyedRunOutcome(src, h, index0, c0);
    forall x | x in run.index.Values ensures x in dest {
      var k :| k in run.index && run.index[k] == x;
    }
    DropFirstOfAppend(dest, run.created, run.index.Values);
    DropFirstOfNoDup(dest, run.index.Values);
  }

  /**
   * Which destination elements the merge removes: exactly the ones the
   * pre-pass recorded under a key that no source item carries.
   */
  lemma KeyedLeftovers<S, K, E, C>(dest: seq<E>, src: seq<S>, h: KeyedPlan<S, K, E, C>, c0: C)
    ensures var index0 := KeyIndex(dest, h.destKey);
      var run := KeyedRun(src, h, index0, c0);
      forall e :: e in run.index.Values <==> e in dest && h.destKey(e) !in SourceKeys(src, h) && index0[h.destKey(e)] == e
  {
    var index0 := KeyIndex(dest, h.destKey);
    var run := KeyedRun(src, h, index0, c0);
    KeyedRunOutcome(src, h, index0, c0);
    forall e ensures e in run.index.Values <==> e in dest && h.destKey(e) !in SourceKeys(src, h) && index0[h.destKey(e)] == e {
      if e in run.index.Values {
        var k :| k in run.index && run.index[k] == e;
      }
      if e in dest && h.destKey(e) !in SourceKeys(src, h) && index0[h.destKey(e)] == e {
        assert run.index[h.destKey(e)] == e;
      }
    }
  }

  /**
   * A destination element whose key some source item carries is merged into
   * and kept; the first such source item is the one merged into it.
   */
  lemma MatchedKept<S, K, E, C>(dest: seq<E>, src: seq<S>, h: KeyedPlan<S, K, E, C>, c0: C, e: E)
    requires e in dest && h.destKey(e) in SourceKeys(src, h)
    ensures var run := KeyedRun(src, h, KeyIndex(dest, h.destKey), c0);
      e in DropFirstOf(dest + run.created, run.index.Values)
  {
    var run := KeyedRun(src, h, KeyIndex(dest, h.destKey), c0);
    KeyedLeftovers(dest, src, h, c0);
    assert e !in run.index.Values;
    DropFirstOfKeeps(dest + run.created, run.index.Values, e);
  }

  // The example of a relation {A, B, C} reconciled with source keys {A, C, D}:
  // elements "A", "B", "C" carry keys 1, 2, 3; the source items are their keys.

  function ExampleKey(e: string): int
  {
    if e == "A" then 1 else if e == "B" then 2 else 3
  }

  function ExamplePlan(item: int, prior: Option<string>, c: int): (string, int)
  {
    (if prior.Some? then prior.value else "D", c)
  }

  function Example(): KeyedPlan<int, int, string, int>
  {
    KeyedPlan(ExampleKey, (s: int) => s, (s: int, c: int) => None, ExamplePlan)
  }

  lemma ExampleIndex()
    ensures KeyIndex(["A", "B", "C"], Example().destKey) == map[1 := "A", 2 := "B", 3 := "C"]
  {
    var dest := ["A", "B", "C"];
    var index0 := KeyIndex(dest, ExampleKey);
    assert ExampleKey(dest[0]) == 1 && ExampleKey(dest[1]) == 2 && ExampleKey(dest[2]) == 3;
    assert index0[1] == "A" && index0[2] == "B" && index0[3] == "C";
    assert index0.Keys == {1, 2, 3};
  }

  lemma ExampleRun()
    ensures KeyedRun([1, 3, 4], Example(), map[1 := "A", 2 := "B", 3 := "C"], 0)
         == KeyedPass(map[2 := "B"], ["D"], ["A", "C"], 0)
  {
    var h := Example();
    var index0 := map[1 := "A", 2 := "B", 3 := "C"];
    var src := [1, 3, 4];
    assert src[..1] == [1] && src[..2] == [1, 3] && src[..2][..1] == [1] && src[..1][..0] == [];
    var p1 := KeyedStep(KeyedPass(index0, [], [], 0), 1, h);
    assert p1 == KeyedPass(map[2 := "B", 3 := "C"], [], ["A"], 0) by {
      assert index0 - {1} == map[2 := "B", 3 := "C"];
    }
    var p2 := KeyedStep(p1, 3, h);
    assert p2 == KeyedPass(map[2 := "B"], [], ["A", "C"], 0) by {
      assert map[2 := "B", 3 := "C"] - {3} == map[2 := "B"];
    }
    assert KeyedRun(src[..1], h, index0, 0) == p1;
    assert KeyedRun(src[..2], h, index0, 0) == p2;
  }

  lemma ExampleRemoval()
    ensures DropFirstOf(["A", "B", "C", "D"], {"B"}) == ["A", "C", "D"]
  {
    assert ["A", "B", "C", "D"][1..] == ["B", "C", "D"];
    assert ["B", "C", "D"][1..] == ["C", "D"];
    assert ({"B"} - {"B"}) == {};
    DropFirstOfNothing(["C", "D"]);
  }

  /**
   * A and C are merged into and kept as the same elements, B is removed, one
   * new element is created for D and appended.
   */
  lemma ReconcileExample()
    ensures var run := KeyedRun([1, 3, 4], Example(), KeyIndex(["A", "B", "C"], Example().destKey), 0);
      && run.created == ["D"]
      && run.merged == ["A", "C"]
      && DropFirstOf(["A", "B", "C"] + run.created, run.index.Values) == ["A", "C", "D"]
  {
    ExampleIndex();
    ExampleRun();
    ExampleRemoval();
    assert map[2 := "B"].Values == {"B"};
    assert ["A", "B", "C"] + ["D"] == ["A", "B", "C", "D"];
  }

  /**
   * An empty source against a relation whose elements have distinct keys
   * empties the relation.
   */
  lemma EmptySourceEmptiesRelation<S, K, E, C>(dest: seq<E>, h: KeyedPlan<S, K, E, C>, c0: C)
    requires forall i, j :: 0 <= i < j < |dest| ==> h.destKey(dest[i]) != h.destKey(dest[j])
    ensures var run := KeyedRun([], h, KeyIndex(dest, h.destKey), c0);
      DropFirstOf(dest + run.created, run.index.Values) == []
  {
    var index0 := KeyIndex(dest, h.destKey);
    var run := KeyedRun([], h, index0, c0);
    assert run == KeyedPass(index0, [], [], c0);
    assert NoDup(dest);
    forall i | 0 <= i < |dest| ensures dest[i] in index0.Values {
      assert index0[h.destKey(dest[i])] == dest[i];
    }
    KeyedListResult(dest, [], h, c0);
    WithoutEverything(dest, index0.Values);
    assert dest + [] == dest;
  }

  // ---- The cache-driven merge (used set) ----

  /** The cache lookup made before the call (`cache.get(rck)`) and the child serializer. */
  datatype CachePlan<!S, !E, !C> = CachePlan(lookup: (S, C) -> Option<E>, plan: (S, Option<E>, C) -> (E, C))

  /** The state of the source pass: the elements appended, the set `used`. */
  datatype UsedPass<E, C> = UsedPass(appended: seq<E>, used: set<E>, state: C)

  /** One source item: its result is recorded in `used`, and appended only when the lookup missed. */
  function UsedStep<S, E, C>(p: UsedPass<E, C>, item: S, h: CachePlan<S, E, C>): UsedPass<E, C>
  {
    var hit := h.lookup(item, p.state);
    var out := h.plan(item, hit, p.state);
    UsedPass(if hit.None? then p.appended + [out.0] else p.appended, p.used + {out.0}, out.1)
  }

  function UsedRun<S, E, C>(src: seq<S>, h: CachePlan<S, E, C>, c0: C): UsedPass<E, C>
  {
    if src == [] then UsedPass([], {}, c0)
    else UsedStep(UsedRun(src[..|src| - 1], h, c0), src[|src| - 1], h)
  }

  /** Every appended element is recorded in `used`, and at most one element is appended per item. */
  lemma {:induction false} UsedRunOutcome<S, E, C>(src: seq<S>, h: CachePlan<S, E, C>, c0: C)
    ensures var run := UsedRun(src, h, c0);
      Elems(run.appended) <= run.used && |run.appended| <= |src| && |run.used| <= |src|
  {
    if src != [] {
      UsedRunOutcome(src[..|src| - 1], h, c0);
    }
  }

  /**
   * `gen_merge_relation_sqla`, list container: each item's result is appended
   * when the cache lookup missed and recorded in `used`; then every element
   * of `set(dest) - used` is removed once.
   */
  method MergeCachedIntoList<S, E(==), C>(dest: PyList<E>, src: seq<S>, h: CachePlan<S, E, C>, c0: C)
    returns (c: C)
    modifies dest
    ensures var run := UsedRun(src, h, c0);
      && dest.items == DropFirstOf(old(dest.items) + run.appended, Elems(old(dest.items)) - run.used)
      && c == run.state
  {
    ghost var before := dest.items;
    var used: set<E> := {};
    c := c0;
    var j := 0;
    while j < |src|
      invariant 0 <= j <= |src|
      invariant used == UsedRun(src[..j], h, c0).used && c == UsedRun(src[..j], h, c0).state
      invariant dest.items == before + UsedRun(src[..j], h, c0).appended
    {
      assert src[..j + 1][..j] == src[..j];
      var item := src[j];
      var destItem := h.lookup(item, c);
      var out := h.plan(item, destItem, c);
      c := out.1;
      if destItem.None? {
        dest.Append(out.0);
      }
      used := used + {out.0};
      j := j + 1;
    }
    assert src[..j] == src;
    UsedRunOutcome(src, h, c0);
    var stale := Elems(dest.items) - used;
    assert stale == Elems(before) - used;
    RemoveEach(dest, stale);
  }

  /** The same merge into a set container: `add` when the lookup missed, then `set(dest) - used` removed. */
  method MergeCachedIntoSet<S, E(==), C>(dest: PySet<E>, src: seq<S>, h: CachePlan<S, E, C>, c0: C)
    returns (c: C)
    modifies dest
    ensures var run := UsedRun(src, h, c0);
      && dest.elems == (old(dest.elems) + Elems(run.appended)) - (old(dest.elems) - run.used)
      && c == run.state
  {
    ghost var before := dest.elems;
    var used: set<E> := {};
    c := c0;
    var j := 0;
    while j < |src|
      invariant 0 <= j <= |src|
      invariant used == UsedRun(src[..j], h, c0).used && c == UsedRun(src[..j], h, c0).state
      invariant dest.elems == before + Elems(UsedRun(src[..j], h, c0).appended)
    {
      assert src[..j + 1][..j] == src[..j];
      var item := src[j];
      var destItem := h.lookup(item, c);
      var out := h.plan(item, destItem, c);
      c := out.1;
      if destItem.None? {
        dest.Add(out.0);
      }
      used := used + {out.0};
      j := j + 1;
    }
    assert src[..j] == src;
    UsedRunOutcome(src, h, c0);
    var stale := dest.elems - used;
    assert stale == before - used;
    while stale != {}
      invariant stale <= before - used
      invariant dest.elems == (before + Elems(UsedRun(src, h, c0).appended)) - ((before - used) - stale)
      decreases stale
    {
      var inst :| inst in stale;
      var found := dest.Remove(inst);
      assert found;  // the emitted `remove` never raises KeyError
      stale := stale - {inst};
    }
  }

  /**
   * What the cache-driven merge leaves in a relation holding each instance
   * once: the old elements some item resolved to, then the appended ones.
   */
  lemma UsedListResult<S, E, C>(dest: seq<E>, src: seq<S>, h: CachePlan<S, E, C>, c0: C)
    requires NoDup(dest)
    ensures var run := UsedRun(src, h, c0);
      var final := DropFirstOf(dest + run.appended, Elems(dest) - run.used);
      && final == Without(dest, Elems(dest) - run.used) + run.appended
      && Elems(final) == (Elems(dest) * run.used) + Elems(run.appended)
  {
    var run := UsedRun(src, h, c0);
    DropFirstOfAppend(dest, run.appended, Elems(dest) - run.used);
    DropFirstOfNoDup(dest, Elems(dest) - run.used);
  }

  /**
   * The cache-driven merge loses an item whose cache lookup hits an element
   * not already in the relation: one item, an empty relation, a lookup that
   * returns element 7, and the relation stays empty although 7 is in `used`.
   */
  lemma CachedHitOutsideRelationIsLost()
    ensures var h: CachePlan<int, int, int> := CachePlan((s, c) => Some(7), (s, prior: Option<int>, c) => (7, c));
      var run := UsedRun([1], h, 0);
      && 7 in run.used
      && DropFirstOf([] + run.appended, Elems([]) - run.used) == []
  {
    var h: CachePlan<int, int, int> := CachePlan((s, c) => Some(7), (s, prior: Option<int>, c) => (7, c));
    assert [1][..0] == [];
    assert UsedRun([1], h, 0) == UsedPass([], {7}, 0);
  }

  /** The corrected source pass: an element is appended whenever it is not yet in the relation. */
  function FixedStep<S, E(==), C>(p: UsedPass<E, C>, item: S, h: CachePlan<S, E, C>, dest: seq<E>): UsedPass<E, C>
  {
    var hit := h.lookup(item, p.state);
    var out := h.plan(item, hit, p.state);
    UsedPass(if out.0 in dest + p.appended then p.appended else p.appended + [out.0], p.used + {out.0}, out.1)
  }

  function FixedRun<S, E(==), C>(src: seq<S>, h: CachePlan<S, E, C>, dest: seq<E>, c0: C): UsedPass<E, C>
  {
    if src == [] then UsedPass([], {}, c0)
    else FixedStep(FixedRun(src[..|src| - 1], h, dest, c0), src[|src| - 1], h, dest)
  }

  /** Everything used is in the relation after the corrected pass, and nothing is appended twice. */
  lemma {:induction false} FixedRunOutcome<S, E, C>(src: seq<S>, h: CachePlan<S, E, C>, dest: seq<E>, c0: C)
    ensures var run := FixedRun(src, h, dest, c0);
      && Elems(run.appended) <= run.used
      && run.used <= Elems(dest) + Elems(run.appended)
      && NoDup(run.appended)
      && Elems(run.appended) !! Elems(dest)
  {
    if src != [] {
      FixedRunOutcome(src[..|src| - 1], h, dest, c0);
    }
  }

  /**
   * The corrected merge: the relation ends up holding exactly the elements
   * the source items resolved to, each once.
   */
  lemma FixedMembership<S, E, C>(dest: seq<E>, src: seq<S>, h: CachePlan<S, E, C>, c0: C)
    requires NoDup(dest)
    ensures var run := FixedRun(src, h, dest, c0);
      var final := DropFirstOf(dest + run.appended, Elems(dest) - run.used);
      Elems(final) == run.used && NoDup(final)
  {
    var run := FixedRun(src, h, dest, c0);
    FixedRunOutcome(src, h, dest, c0);
    DropFirstOfAppend(dest, run.appended, Elems(dest) - run.used);
    DropFirstOfNoDup(dest, Elems(dest) - run.used);
    var kept := Without(dest, Elems(dest) - run.used);
    WithoutNoDup(dest, Elems(dest) - run.used);
    forall i, j | 0 <= i < j < |kept + run.appended| ensures (kept + run.appended)[i] != (kept + run.appended)[j] {
      if i < |kept| && j >= |kept| {
        assert (kept + run.appended)[i] in dest;
        assert (kept + run.appended)[j] in run.appended;
      }
    }
  }

  /** The corrected cache-driven merge into a list. */
  method MergeCachedIntoListFixed<S, E(==), C>(dest: PyList<E>, src: seq<S>, h: CachePlan<S, E, C>, c0: C)
    returns (c: C)
    modifies dest
    ensures var run := FixedRun(src, h, old(dest.items), c0);
      && dest.items == DropFirstOf(old(dest.items) + run.appended, Elems(old(dest.items)) - run.used)
      && c == run.state
  {
    ghost var before := dest.items;
    var used: set<E> := {};
    c := c0;
    var j := 0;
    while j < |src|
      invariant 0 <= j <= |src|
      invariant used == FixedRun(src[..j], h, before, c0).used && c == FixedRun(src[..j], h, before, c0).state
      invariant dest.items == before + FixedRun(src[..j], h, before, c0).appended
    {
      assert src[..j + 1][..j] == src[..j];
      var item := src[j];
      var destItem := h.lookup(item, c);
      var out := h.plan(item, destItem, c);
      c := out.1;
      if out.0 !in dest.items {
        dest.Append(out.0);
      }
      used := used + {out.0};
      j := j + 1;
    }
    assert src[..j] == src;
    FixedRunOutcome(src, h, before, c0);
    var stale := Elems(dest.items) - used;
    assert stale == Elems(before) - used;
    RemoveEach(dest, stale);
  }

  // ---- relation_copy of the dict and object type supports ----

  datatype Produced<E, C> = Produced(elems: seq<E>, state: C)

  /** `for item in source: dest.append(serialize(item, None))` as values. */
  function ProduceAll<S, E, C>(src: seq<S>, plan: (S, Option<E>, C) -> (E, C), c0: C): Produced<E, C>
  {
    if src == [] then Produced([], c0)
    else
      var p := ProduceAll(src[..|src| - 1], plan, c0);
      var out := plan(src[|src| - 1], None, p.state);
      Produced(p.elems + [out.0], out.1)
  }

  /** One freshly produced element per source item, in source order. */
  lemma {:induction false} ProduceAllInOrder<S, E, C>(src: seq<S>, plan: (S, Option<E>, C) -> (E, C), c0: C)
    ensures |ProduceAll(src, plan, c0).elems| == |src|
    ensures forall i :: 0 <= i < |src| ==>
      ProduceAll(src, plan, c0).elems[i] == plan(src[i], None, ProduceAll(src[..i], plan, c0).state).0
  {
    if src != [] {
      var n := |src| - 1;
      ProduceAllInOrder(src[..n], plan, c0);
      forall i | 0 <= i < |src| ensures ProduceAll(src, plan, c0).elems[i] == plan(src[i], None, ProduceAll(src[..i], plan, c0).state).0 {
        if i < n {
          assert src[..n][i] == src[i] && src[..n][..i] == src[..i];
        } else {
          assert src[..i] == src[..n];
        }
      }
    }
  }

  /** DictTypeSupport.relation_copy: the destination relation is a new list, filled in source order. */
  method DictRelationCopy<S, E(==), C>(src: seq<S>, plan: (S, Option<E>, C) -> (E, C), c0: C)
    returns (rel: PyList<E>, c: C)
    ensures fresh(rel)
    ensures rel.items == ProduceAll(src, plan, c0).elems && c == ProduceAll(src, plan, c0).state
  {
    rel := new PyList([]);
    c := c0;
    var j := 0;
    while j < |src|
      invariant 0 <= j <= |src|
      invariant rel.items == ProduceAll(src[..j], plan, c0).elems && c == ProduceAll(src[..j], plan, c0).state
    {
      assert src[..j + 1][..j] == src[..j];
      var out := plan(src[j], None, c);
      rel.Append(out.0);
      c := out.1;
      j := j + 1;
    }
    assert src[..j] == src;
  }

  /** ObjectTypeSupport.relation_copy: the existing list is cleared, then refilled in source order. */
  method ObjectRelationCopy<S, E(==), C>(rel: PyList<E>, src: seq<S>, plan: (S, Option<E>, C) -> (E, C), c0: C)
    returns (c: C)
    modifies rel
    ensures rel.items == ProduceAll(src, plan, c0).elems && c == ProduceAll(src, plan, c0).state
  {
    rel.Clear();
    c := c0;
    var j := 0;
    while j < |src|
      invariant 0 <= j <= |src|
      invariant rel.items == ProduceAll(src[..j], plan, c0).elems && c == ProduceAll(src[..j], plan, c0).state
    {
      assert src[..j + 1][..j] == src[..j];
      var out := plan(src[j], None, c);
      rel.Append(out.0);
      c := out.1;
      j := j + 1;
    }
    assert src[..j] == src;
  }
}
