/** Merging of configuration trees, `merge_config`, and exactly when it is associative. */
module ConfigMerge {
  import opened Sequences
  import opened Wrappers

  /** A dict keeps its keys in insertion order; `ordered` tells an `OrderedDict` from a plain dict. */
  datatype Value =
    | Null
    | Scalar(tag: int)
    | List(items: seq<Value>)
    | Dict(ordered: bool, keys: seq<string>, entries: map<string, Value>)
    | Remove(id: int)

  /** Every dict lists each of its keys once. */
  ghost predicate WellFormed(v: Value) {
    v.Dict? ==>
      && Distinct(v.keys)
      && (forall k :: k in v.keys <==> k in v.entries)
      && (forall k | k in v.entries :: WellFormed(v.entries[k]))
  }

  /** `base.get(k)` */
  function Get(v: Value, k: string): Value
    requires v.Dict?
  {
    if k in v.entries then v.entries[k] else Null
  }

  /** The key order of a dict after `res[k] = ...` for every key of the update. */
  function MergeKeys(base: seq<string>, update: seq<string>): seq<string> {
    if update == [] then base
    else
      var last := |update| - 1;
      var r := MergeKeys(base, update[..last]);
      if update[last] in r then r else r + [update[last]]
  }

  function Merge(base: Value, update: Value): Value
    decreases update
  {
    match update
    case Remove(_) => update
    case Dict(_, _, _) => if base.Dict? then MergeDicts(base, update) else update
    case List(items) => if base.List? then List(base.items + items) else update
    case Null => base
    case Scalar(_) => update
  }

  function MergeDicts(base: Value, update: Value): Value
    requires base.Dict? && update.Dict?
    decreases update, 0
  {
    Dict(base.ordered || update.ordered, MergeKeys(base.keys, update.keys),
         map k | k in base.entries.Keys + update.entries.Keys ::
           if k in update.entries then Merge(Get(base, k), update.entries[k]) else base.entries[k])
  }

  // The loop

  /** The entries of the copied dict once the keys in `done` are merged in. */
  ghost function EntriesAfter(base: Value, update: Value, done: seq<string>): map<string, Value>
    requires base.Dict? && update.Dict?
  {
    map k | k in base.entries.Keys + (set x | x in done) ::
      if k in done && k in update.entries then Merge(Get(base, k), update.entries[k]) else Get(base, k)
  }

  method MergeConfig(base: Value, update: Value) returns (r: Value)
    requires WellFormed(base) && WellFormed(update)
    ensures r == Merge(base, update)
    decreases update, 1
  {
    if update.Remove? {
      return update;
    }
    if update.Dict? {
      if !base.Dict? {
        return update;
      }
      r := MergeIntoCopy(base, update);
      return;
    }
    if update.List? {
      if !base.List? {
        return update;
      }
      return List(base.items + update.items);
    }
    if update.Null? {
      return base;
    }
    return update;
  }

  method MergeIntoCopy(base: Value, update: Value) returns (r: Value)
    requires WellFormed(base) && WellFormed(update) && base.Dict? && update.Dict?
    ensures r == MergeDicts(base, update)
    decreases update, 0
  {
    hide Merge, MergeDicts, MergeKeys, EntriesAfter;
    var keys, entries := base.keys, base.entries;
    LoopStarts(base, update);
    for i := 0 to |update.keys|
      invariant keys == MergeKeys(base.keys, update.keys[..i])
      invariant entries == EntriesAfter(base, update, update.keys[..i])
    {
      var k := update.keys[i];
      assert k in update.entries;
      var v := MergeConfig(Get(base, k), update.entries[k]);
      assert update.keys[..i + 1] == update.keys[..i] + [k];
      NextKey(base.keys, update.keys[..i], k);
      NextEntry(base, update, update.keys[..i], k);
      keys := if k in keys then keys else keys + [k];
      entries := entries[k := v];
    }
    assert update.keys[..|update.keys|] == update.keys;
    LoopEnds(base, update);
    r := Dict(base.ordered || update.ordered, keys, entries);
  }

  lemma LoopStarts(base: Value, update: Value)
    requires base.Dict? && update.Dict?
    ensures MergeKeys(base.keys, update.keys[..0]) == base.keys
    ensures EntriesAfter(base, update, update.keys[..0]) == base.entries
  {
    hide Merge;
  }

  lemma LoopEnds(base: Value, update: Value)
    requires base.Dict? && update.Dict? && forall k :: k in update.keys <==> k in update.entries
    ensures MergeDicts(base, update) ==
            Dict(base.ordered || update.ordered, MergeKeys(base.keys, update.keys),
                 EntriesAfter(base, update, update.keys))
  {
    hide Merge, MergeKeys;
    assert (set x | x in update.keys) == update.entries.Keys;
  }

  lemma NextKey(a: seq<string>, done: seq<string>, k: string)
    ensures MergeKeys(a, done + [k]) == if k in MergeKeys(a, done) then MergeKeys(a, done) else MergeKeys(a, done) + [k]
  {
    assert (done + [k])[..|done|] == done;
  }

  lemma NextEntry(base: Value, update: Value, done: seq<string>, k: string)
    requires base.Dict? && update.Dict? && k in update.entries
    ensures EntriesAfter(base, update, done + [k]) ==
            EntriesAfter(base, update, done)[k := Merge(Get(base, k), update.entries[k])]
  {
    hide Merge, Get;
  }

  // Keys

  lemma {:induction false} MergedKeys(a: seq<string>, b: seq<string>)
    ensures forall k :: k in MergeKeys(a, b) <==> k in a || k in b
    ensures a <= MergeKeys(a, b)
    ensures Distinct(a) ==> Distinct(MergeKeys(a, b))
    decreases |b|
  {
    if b != [] {
      var last := |b| - 1;
      MergedKeys(a, b[..last]);
      assert b == b[..last] + [b[last]];
    }
  }

  /** The keys of the update that the old dict lacks, in their order. */
  function NewKeys(base: seq<string>, update: seq<string>): seq<string> {
    if update == [] then []
    else
      var last := |update| - 1;
      NewKeys(base, update[..last]) + (if update[last] in base then [] else [update[last]])
  }

  lemma FreshKey(a: seq<string>, b: seq<string>, k: string)
    requires k !in b
    ensures k in MergeKeys(a, b) <==> k in a
  {
    MergedKeys(a, b);
  }

  lemma {:induction false} MergedKeyOrder(a: seq<string>, b: seq<string>)
    requires Distinct(b)
    ensures MergeKeys(a, b) == a + NewKeys(a, b)
    decreases |b|
  {
    if b != [] {
      var last := |b| - 1;
      MergedKeyOrder(a, b[..last]);
      FreshKey(a, b[..last], b[last]);
      assert forall i | 0 <= i < last :: b[..last][i] == b[i];
    }
  }

  lemma {:induction false} KeysAssociate(a: seq<string>, b: seq<string>, c: seq<string>)
    ensures MergeKeys(MergeKeys(a, b), c) == MergeKeys(a, MergeKeys(b, c))
    decreases |c|
  {
    if c != [] {
      var last := |c| - 1;
      var front := MergeKeys(b, c[..last]);
      KeysAssociate(a, b, c[..last]);
      MergedKeys(a, front);
      assert (front + [c[last]])[..|front|] == front;
    }
  }

  /**
   Merging keeps trees well formed; a merged dict has the keys of both and a merged list the items of
   both, the old ones first.
   */
  lemma {:induction false} MergeKeepsWellFormed(base: Value, update: Value)
    requires WellFormed(base) && WellFormed(update)
    ensures WellFormed(Merge(base, update))
    ensures base.Dict? && update.Dict? ==>
              var r := Merge(base, update);
              && r.Dict? && r.keys == base.keys + NewKeys(base.keys, update.keys)
              && forall k :: k in r.entries <==> k in base.entries || k in update.entries
    ensures base.List? && update.List? ==>
              var r := Merge(base, update);
              r.List? && base.items <= r.items && r.items[|base.items|..] == update.items
    decreases update
  {
    if base.Dict? && update.Dict? {
      MergedKeys(base.keys, update.keys);
      MergedKeyOrder(base.keys, update.keys);
      forall k | k in update.entries
        ensures WellFormed(Merge(Get(base, k), update.entries[k]))
      {
        MergeKeepsWellFormed(Get(base, k), update.entries[k]);
      }
    }
  }

  // What is found where in a merged tree

  /** What a tree has at a path of keys. */
  function Lookup(v: Value, path: seq<string>): Option<Value> {
    if path == [] then Some(v)
    else if v.Dict? && path[0] in v.entries then Lookup(v.entries[path[0]], path[1..])
    else None
  }

  /** The tree has nothing to say about the path: a dict on the way lacks the key, or there is None. */
  predicate Silent(v: Value, path: seq<string>) {
    v.Null? || (path != [] && v.Dict? && (path[0] in v.entries ==> Silent(v.entries[path[0]], path[1..])))
  }

  /** Two values that are not both dicts: lists are joined, None yields, and anything else replaces. */
  predicate Combines(x: Value, y: Value, r: Value) {
    if y.Null? then r == x
    else if x.List? && y.List? then r == List(x.items + y.items)
    else r == y
  }

  /**
   Every place in a merged tree.  Where only the update has something, that is found; where only the old tree
   has something and the update is silent, that stays; where both have something it is combined, and two dicts
   are again a dict, ordered if either is.
   */
  lemma {:induction false} MergedAt(base: Value, update: Value, path: seq<string>)
    ensures Silent(update, path) && Lookup(base, path).Some? ==> Lookup(Merge(base, update), path) == Lookup(base, path)
    ensures Lookup(base, path).None? && Lookup(update, path).Some? ==>
              Lookup(Merge(base, update), path) == Lookup(update, path)
    ensures Lookup(base, path).Some? && Lookup(update, path).Some? ==>
              var x, y := Lookup(base, path).value, Lookup(update, path).value;
              var r := Lookup(Merge(base, update), path);
              && r.Some?
              && (if x.Dict? && y.Dict? then r.value.Dict? && r.value.ordered == (x.ordered || y.ordered)
                  else Combines(x, y, r.value))
    decreases |path|
  {
    if path != [] && base.Dict? && update.Dict? && path[0] in update.entries {
      MergedAt(Get(base, path[0]), update.entries[path[0]], path[1..]);
    }
  }

  /** None is neutral on both sides. */
  lemma NullIsNeutral(v: Value)
    ensures Merge(Null, v) == v && Merge(v, Null) == v
  {
  }

  // When merging something in changes nothing

  /** `c` already contains all that `a` would contribute. */
  predicate Absorbed(a: Value, c: Value)
    decreases c
  {
    match c
    case Null => a == Null
    case List(_) => a.List? ==> a.items == []
    case Dict(ordered, keys, entries) =>
      a.Dict? ==>
        && (a.ordered ==> ordered)
        && a.keys <= keys
        && forall k | k in a.entries && k in entries :: Absorbed(a.entries[k], entries[k])
    case _ => true
  }

  lemma {:induction false} AbsorbedExactly(a: Value, c: Value)
    requires WellFormed(a) && WellFormed(c)
    ensures Merge(a, c) == c <==> Absorbed(a, c)
    decreases c
  {
    match c
    case List(items) =>
      if a.List? {
        assert a.items + items == items <==> |a.items| == 0;
      }
    case Dict(_, _, _) =>
      if a.Dict? {
        forall k | k in a.entries && k in c.entries
          ensures Merge(a.entries[k], c.entries[k]) == c.entries[k] <==> Absorbed(a.entries[k], c.entries[k])
        {
          AbsorbedExactly(a.entries[k], c.entries[k]);
        }
        DictAbsorbed(a, c);
      }
    case _ =>
  }

  lemma DictAbsorbed(a: Value, c: Value)
    requires WellFormed(a) && WellFormed(c) && a.Dict? && c.Dict?
    ensures MergeDicts(a, c) == c <==>
            && (a.ordered ==> c.ordered)
            && a.keys <= c.keys
            && forall k | k in a.entries && k in c.entries :: Merge(a.entries[k], c.entries[k]) == c.entries[k]
  {
    hide Merge;
    MergedKeys(a.keys, c.keys);
    var m := MergeDicts(a, c);
    forall k | k in c.entries && k !in a.entries
      ensures m.entries[k] == c.entries[k]
    {
      NullIsNeutral(c.entries[k]);
    }
    if a.keys <= c.keys {
      KeysAbsorbed(a.keys, c.keys);
      assert forall k :: k in m.entries <==> k in c.entries;
    }
    if m == c {
      forall k | k in a.entries && k in c.entries
        ensures Merge(a.entries[k], c.entries[k]) == c.entries[k]
      {
        assert m.entries[k] == Merge(a.entries[k], c.entries[k]);
      }
    } else if (a.ordered ==> c.ordered) && a.keys <= c.keys {
      assert m.entries != c.entries;
      var k :| k in c.entries && m.entries[k] != c.entries[k];
    }
  }

  lemma {:induction false} KeysAbsorbed(a: seq<string>, c: seq<string>)
    requires a <= c && Distinct(c)
    ensures MergeKeys(a, c) == c
    decreases |c|
  {
    if c != [] {
      var last := |c| - 1;
      if |a| == |c| {
        assert a == c;
        AllPresent(c, c);
      } else {
        KeysAbsorbed(a, c[..last]);
      }
    }
  }

  lemma {:induction false} AllPresent(a: seq<string>, b: seq<string>)
    requires forall k | k in b :: k in a
    ensures MergeKeys(a, b) == a
    decreases |b|
  {
    if b != [] {
      var last := |b| - 1;
      assert b == b[..last] + [b[last]];
      AllPresent(a, b[..last]);
    }
  }

  // Associativity

  /** Where `c` is a list or a dict, nothing of another kind in `b` may hide what `a` has for it. */
  predicate NothingHidden(a: Value, b: Value, c: Value)
    decreases c
  {
    match c
    case List(_) => a.List? && !b.List? && !b.Null? ==> a.items == []
    case Dict(_, _, entries) =>
      if a.Dict? && b.Dict? then
        forall k | k in a.entries && k in b.entries && k in entries ::
          NothingHidden(a.entries[k], b.entries[k], entries[k])
      else
        a.Dict? && !b.Null? ==> Absorbed(a, c)
    case _ => true
  }

  /** Merging is associative exactly when nothing is hidden. */
  lemma {:induction false} AssociatesExactly(a: Value, b: Value, c: Value)
    requires WellFormed(a) && WellFormed(b) && WellFormed(c)
    ensures Merge(Merge(a, b), c) == Merge(a, Merge(b, c)) <==> NothingHidden(a, b, c)
    decreases c
  {
    match c
    case List(items) => ListsAssociate(a, b, items);
    case Dict(_, _, _) =>
      if a.Dict? && b.Dict? {
        forall k | k in a.entries && k in b.entries && k in c.entries
          ensures Merge(Merge(a.entries[k], b.entries[k]), c.entries[k]) ==
                  Merge(a.entries[k], Merge(b.entries[k], c.entries[k])) <==>
                  NothingHidden(a.entries[k], b.entries[k], c.entries[k])
        {
          AssociatesExactly(a.entries[k], b.entries[k], c.entries[k]);
        }
        DictsAssociate(a, b, c);
      } else {
        MixedAssociate(a, b, c);
      }
    case _ =>
  }

  lemma ListsAssociate(a: Value, b: Value, items: seq<Value>)
    ensures Merge(Merge(a, b), List(items)) == Merge(a, Merge(b, List(items))) <==> NothingHidden(a, b, List(items))
  {
    if a.List? && b.List? {
      assert (a.items + b.items) + items == a.items + (b.items + items);
    } else if a.List? && !b.Null? {
      assert a.items + items == items <==> |a.items| == 0;
    }
  }

  lemma MixedAssociate(a: Value, b: Value, c: Value)
    requires WellFormed(a) && WellFormed(c) && c.Dict? && !(a.Dict? && b.Dict?)
    ensures Merge(Merge(a, b), c) == Merge(a, Merge(b, c)) <==> NothingHidden(a, b, c)
  {
    AbsorbedExactly(a, c);
  }

  /** One key of three dicts; a key that is missing somewhere never disagrees. */
  lemma EntryAssociates(a: Value, b: Value, c: Value, k: string)
    requires a.Dict? && b.Dict? && c.Dict?
    requires k in a.entries || k in b.entries || k in c.entries
    ensures k in MergeDicts(MergeDicts(a, b), c).entries && k in MergeDicts(a, MergeDicts(b, c)).entries
    ensures var same := MergeDicts(MergeDicts(a, b), c).entries[k] == MergeDicts(a, MergeDicts(b, c)).entries[k];
            if k in a.entries && k in b.entries && k in c.entries then
              same <==> Merge(Merge(a.entries[k], b.entries[k]), c.entries[k]) ==
                        Merge(a.entries[k], Merge(b.entries[k], c.entries[k]))
            else same
  {
    hide Merge;
    if k in b.entries {
      NullIsNeutral(b.entries[k]);
    }
    if k in c.entries {
      NullIsNeutral(Merge(Get(b, k), c.entries[k]));
      NullIsNeutral(c.entries[k]);
    }
  }

  lemma DictsAssociate(a: Value, b: Value, c: Value)
    requires a.Dict? && b.Dict? && c.Dict?
    ensures MergeDicts(MergeDicts(a, b), c) == MergeDicts(a, MergeDicts(b, c)) <==>
            forall k | k in a.entries && k in b.entries && k in c.entries ::
              Merge(Merge(a.entries[k], b.entries[k]), c.entries[k]) ==
              Merge(a.entries[k], Merge(b.entries[k], c.entries[k]))
  {
    hide Merge;
    var left, right := MergeDicts(MergeDicts(a, b), c), MergeDicts(a, MergeDicts(b, c));
    KeysAssociate(a.keys, b.keys, c.keys);
    assert left.entries.Keys == right.entries.Keys;
    forall k | k in left.entries
      ensures left.entries[k] != right.entries[k] ==> k in a.entries && k in b.entries && k in c.entries
      ensures k in a.entries && k in b.entries && k in c.entries ==>
                (left.entries[k] == right.entries[k] <==>
                 Merge(Merge(a.entries[k], b.entries[k]), c.entries[k]) ==
                 Merge(a.entries[k], Merge(b.entries[k], c.entries[k])))
    {
      EntryAssociates(a, b, c, k);
    }
  }

  /** Trees that have the same kind wherever both have something: what packages normally are. */
  predicate Agree(a: Value, b: Value)
    decreases b
  {
    match b
    case Null => true
    case Dict(_, _, entries) =>
      a.Null? || (a.Dict? && forall k | k in a.entries && k in entries :: Agree(a.entries[k], entries[k]))
    case List(_) => a.Null? || a.List?
    case Scalar(_) => a.Null? || a.Scalar?
    case Remove(_) => false
  }

  lemma {:induction false} AgreeingTreesAssociate(a: Value, b: Value, c: Value)
    requires WellFormed(a) && WellFormed(b) && WellFormed(c)
    requires Agree(a, b) && Agree(b, c) && Agree(a, c)
    ensures Merge(Merge(a, b), c) == Merge(a, Merge(b, c))
  {
    AgreeingHidesNothing(a, b, c);
    AssociatesExactly(a, b, c);
  }

  lemma {:induction false} AgreeingHidesNothing(a: Value, b: Value, c: Value)
    requires Agree(a, b) && Agree(b, c) && Agree(a, c)
    ensures NothingHidden(a, b, c)
    decreases c
  {
    if a.Dict? && b.Dict? && c.Dict? {
      forall k | k in a.entries && k in b.entries && k in c.entries
        ensures NothingHidden(a.entries[k], b.entries[k], c.entries[k])
      {
        AgreeingHidesNothing(a.entries[k], b.entries[k], c.entries[k]);
      }
    }
  }
}
