/**
 The pool of component source names: registration hands out 8-bit indices, and the generated C++
 lookup function turns them back into names.
 */
module SourceTable {
  import opened Sequences
  import opened Wrappers

  const MAX_COMPONENT_SOURCES := 0xFF
  const UNKNOWN := "<unknown>"

  type uint8 = x: int | 0 <= x < 256

  // Registration

  datatype Registered = Registered(sources: map<string, nat>, index: nat)

  function Register(sources: map<string, nat>, name: string): Registered {
    if name == "" then Registered(sources, 0)
    else if name in sources then Registered(sources, sources[name])
    else
      var index := |sources| + 1;
      if index > MAX_COMPONENT_SOURCES then Registered(sources, 0)
      else Registered(sources[name := index], index)
  }

  function RegisterAll(names: seq<string>): map<string, nat> {
    if names == [] then map[] else Register(RegisterAll(names[..|names| - 1]), names[|names| - 1]).sources
  }

  /** The names in the order of their first registration, as long as there is room. */
  function FirstSeen(names: seq<string>): seq<string> {
    if names == [] then []
    else
      var seen := FirstSeen(names[..|names| - 1]);
      var name := names[|names| - 1];
      if name == "" || name in seen || |seen| == 255 then seen else seen + [name]
  }

  /** The pool maps the names of `order` to 1, 2, 3, ... and contains nothing else. */
  ghost predicate Indexes(sources: map<string, nat>, order: seq<string>) {
    && Distinct(order) && |sources| == |order| <= 255
    && (forall i | 0 <= i < |order| :: order[i] in sources && sources[order[i]] == i + 1)
    && (forall name | name in sources :: name in order && name != "")
  }

  lemma RegisterKeepsIndexes(sources: map<string, nat>, order: seq<string>, name: string)
    requires Indexes(sources, order)
    ensures var r := Register(sources, name);
            && Indexes(r.sources,
                       if name == "" || name in order || |order| == 255 then order
                       else order + [name])
            && (r.index == 0 <==> name == "" || (name !in order && |order| == 255))
            && (r.index != 0 ==> name in r.sources && r.sources[name] == r.index)
  {
    assert name in order <==> name in sources;
    if name != "" && name !in order && |order| < 255 {
      NewName(sources, order, name);
    } else {
      hide Indexes;
    }
  }

  lemma NewName(sources: map<string, nat>, order: seq<string>, name: string)
    requires Indexes(sources, order) && name != "" && name !in sources && |order| < 255
    ensures Indexes(sources[name := |order| + 1], order + [name])
  {
    var longer := order + [name];
    assert longer[|order|] == name;
    assert forall i | 0 <= i < |order| :: longer[i] == order[i];
    forall k | k in sources || k == name
      ensures k in longer
    {
      assert k in sources ==> k in order;
    }
  }

  /** After any registrations the indices are exactly 1..n in the order of first appearance. */
  lemma {:induction false} PoolIndexes(names: seq<string>)
    ensures Indexes(RegisterAll(names), FirstSeen(names))
    decreases |names|
  {
    if names != [] {
      hide Indexes;
      PoolIndexes(names[..|names| - 1]);
      RegisterKeepsIndexes(RegisterAll(names[..|names| - 1]), FirstSeen(names[..|names| - 1]), names[|names| - 1]);
    }
  }

  /** Later registrations never change or remove an index. */
  lemma {:induction false} IndicesAreStable(names: seq<string>, later: seq<string>)
    ensures forall name | name in RegisterAll(names) ::
              name in RegisterAll(names + later) && RegisterAll(names + later)[name] == RegisterAll(names)[name]
    decreases |later|
  {
    if later == [] {
      assert names + later == names;
    } else {
      var last := |later| - 1;
      assert (names + later)[..|names| + last] == names + later[..last];
      IndicesAreStable(names, later[..last]);
    }
  }

  // The generated code

  /** `const LogString *component_source_lookup(uint8_t index)`: the table and the condition in front. */
  datatype Generated =
    | WeakDefault
    | Lookup(table: seq<string>, upperCheck: Option<nat>)

  /** What the generated function returns; None stands for a read outside the table. */
  function Call(code: Generated, index: uint8): Option<string> {
    match code
    case WeakDefault => Some(UNKNOWN)
    case Lookup(table, check) =>
      if index == 0 || (check.Some? && index > check.value) then Some(UNKNOWN)
      else if index - 1 < |table| then Some(table[index - 1])
      else None
  }

  /** `sorted(strings.items(), key=...)` */
  ghost predicate SortedByIndex(sources: map<string, nat>, sorted: seq<string>) {
    && |sorted| == |sources|
    && (forall name :: name in sources <==> name in sorted)
    && (forall i, j | 0 <= i < j < |sorted| && sorted[i] in sources && sorted[j] in sources ::
          sources[sorted[i]] <= sources[sorted[j]])
  }

  ghost predicate GeneratedFrom(code: Generated, sources: map<string, nat>) {
    if |sources| == 0 then code == WeakDefault
    else
      && code.Lookup? && SortedByIndex(sources, code.table)
      && code.upperCheck == if |sources| >= 255 then None else Some(|sources|)
  }

  // The pool as an object

  class ComponentSourcePool {
    var sources: map<string, nat>
    var tableRegistered: bool
    var jobs: nat   // table generation jobs scheduled with CORE.add_job

    ghost predicate Valid()
      reads this
    {
      && (tableRegistered <==> jobs == 1) && jobs <= 1
      && (tableRegistered <==> sources != map[])
    }

    constructor ()
      ensures Valid() && sources == map[]
    {
      sources, tableRegistered, jobs := map[], false, 0;
    }

    method EnsureSourceTableRegistered()
      modifies this`tableRegistered, this`jobs
      ensures tableRegistered
      ensures jobs == old(jobs) + if old(tableRegistered) then 0 else 1
    {
      if tableRegistered {
        return;
      }
      tableRegistered := true;
      jobs := jobs + 1;
    }

    /** `register_component_source`; a job is scheduled once, with the first name. */
    method RegisterComponentSource(name: string) returns (index: nat)
      requires Valid()
      modifies this
      ensures Valid()
      ensures Registered(sources, index) == Register(old(sources), name)
    {
      if name == "" {
        return 0;
      }
      if name in sources {
        return sources[name];
      }
      index := |sources| + 1;
      if index > MAX_COMPONENT_SOURCES {
        return 0;
      }
      sources := sources[name := index];
      assert name in sources;
      EnsureSourceTableRegistered();
    }
  }

  /** The names by ascending index; one is picked after the other. */
  method SortSources(sources: map<string, nat>) returns (sorted: seq<string>)
    ensures SortedByIndex(sources, sorted)
  {
    sorted := [];
    var left := sources;
    while left != map[]
      invariant left.Keys <= sources.Keys && |sorted| + |left| == |sources|
      invariant forall name | name in left :: left[name] == sources[name]
      invariant forall name :: name in sources <==> name in left || name in sorted
      invariant forall i, name | 0 <= i < |sorted| && name in left :: sources[sorted[i]] <= sources[name]
      invariant forall i, j | 0 <= i < j < |sorted| :: sources[sorted[i]] <= sources[sorted[j]]
      decreases |left|
    {
      var next := LeastName(left);
      sorted := sorted + [next];
      RemovedOne(left, next);
      left := left - {next};
    }
  }

  lemma RemovedOne(m: map<string, nat>, name: string)
    requires name in m
    ensures |m - {name}| == |m| - 1
  {
    assert m == (m - {name})[name := m[name]];
  }

  method LeastName(m: map<string, nat>) returns (least: string)
    requires m != map[]
    ensures least in m && forall name | name in m :: m[least] <= m[name]
  {
    least :| least in m;
    var todo := m.Keys;
    while todo != {}
      invariant todo <= m.Keys && least in m
      invariant forall name | name in m && name !in todo :: m[least] <= m[name]
    {
      var name :| name in todo;
      if m[name] < m[least] {
        least := name;
      }
      todo := todo - {name};
    }
  }

  /** `_generate_source_table_code` */
  method GenerateSourceTable(sources: map<string, nat>) returns (code: Generated)
    ensures GeneratedFrom(code, sources)
  {
    if |sources| == 0 {
      return WeakDefault;
    }
    var sorted := SortSources(sources);
    var table := [];
    for i := 0 to |sorted|
      invariant table == sorted[..i]
    {
      table := table + [sorted[i]];
    }
    code := Lookup(table, if |sorted| >= 255 then None else Some(|sorted|));
  }

  // Lookup is the inverse of registration

  /** An ascending sequence of at most `m` numbers in which 1..m all occur is 1, 2, ..., m. */
  lemma {:induction false} AscendingCover(p: seq<nat>, m: nat)
    requires |p| <= m && forall i, j | 0 <= i < j < |p| :: p[i] <= p[j]
    requires forall v | 1 <= v <= m :: v in p
    ensures |p| == m && forall i | 0 <= i < m :: p[i] == i + 1
    decreases m
  {
    if m > 0 {
      assert m in p;
      var last := |p| - 1;
      assert p[last] >= m;
      forall v | 1 <= v <= m - 1
        ensures v in p[..last]
      {
        assert v in p;
        var i :| 0 <= i < |p| && p[i] == v;
        assert p[..last][i] == v;
      }
      AscendingCover(p[..last], m - 1);
      assert m !in p[..last];
    }
  }

  function Ranks(sources: map<string, nat>, sorted: seq<string>): seq<nat>
    requires forall i | 0 <= i < |sorted| :: sorted[i] in sources
  {
    seq(|sorted|, i requires 0 <= i < |sorted| => sources[sorted[i]])
  }

  lemma RankOccurs(sources: map<string, nat>, order: seq<string>, sorted: seq<string>, v: nat)
    requires Indexes(sources, order) && 1 <= v <= |order|
    requires forall i | 0 <= i < |sorted| :: sorted[i] in sources
    requires order[v - 1] in sorted
    ensures v in Ranks(sources, sorted)
  {
    var i :| 0 <= i < |sorted| && sorted[i] == order[v - 1];
    assert Ranks(sources, sorted)[i] == v;
  }

  lemma NameOfRank(sources: map<string, nat>, order: seq<string>, name: string)
    requires Indexes(sources, order) && name in sources
    ensures 1 <= sources[name] <= |order| && order[sources[name] - 1] == name
  {
  }

  lemma SortedNames(sources: map<string, nat>, order: seq<string>, sorted: seq<string>)
    requires Indexes(sources, order) && SortedByIndex(sources, sorted)
    ensures forall i | 0 <= i < |sorted| :: sorted[i] in sources
    ensures |sorted| == |order| && forall i | 0 <= i < |order| :: order[i] in sorted
    ensures forall i, j | 0 <= i < j < |sorted| :: Ranks(sources, sorted)[i] <= Ranks(sources, sorted)[j]
  {
    assert forall i | 0 <= i < |sorted| :: sorted[i] in sorted;
    assert forall i | 0 <= i < |order| :: order[i] in sources;
  }

  /** A sorted pool is in the order of first registration. */
  lemma SortedIsFirstSeen(sources: map<string, nat>, order: seq<string>, sorted: seq<string>)
    requires Indexes(sources, order) && SortedByIndex(sources, sorted)
    ensures sorted == order
  {
    hide Indexes, SortedByIndex;
    SortedNames(sources, order, sorted);
    var p := Ranks(sources, sorted);
    forall v | 1 <= v <= |order|
      ensures v in p
    {
      RankOccurs(sources, order, sorted, v);
    }
    AscendingCover(p, |order|);
    forall i | 0 <= i < |order|
      ensures sorted[i] == order[i]
    {
      assert sources[sorted[i]] == p[i];
      NameOfRank(sources, order, sorted[i]);
    }
  }

  /** The whole generated function: nothing is read outside the table, not even without the upper check. */
  lemma LookupIsTotal(names: seq<string>, code: Generated, index: uint8)
    requires GeneratedFrom(code, RegisterAll(names))
    ensures var order := FirstSeen(names);
            Call(code, index) == Some(if 1 <= index <= |order| then order[index - 1] else "<unknown>")
  {
    hide SortedByIndex;
    PoolIndexes(names);
    if code.Lookup? {
      SortedIsFirstSeen(RegisterAll(names), FirstSeen(names), code.table);
    }
  }

  /** The index a registration returned is looked up to the registered name, whatever came later. */
  lemma LookupInvertsRegistration(before: seq<string>, name: string, later: seq<string>, code: Generated)
    requires GeneratedFrom(code, RegisterAll(before + [name] + later))
    ensures var index := Register(RegisterAll(before), name).index;
            index < 256 && Call(code, index) == Some(if index == 0 then "<unknown>" else name)
  {
    hide GeneratedFrom, Call, Indexes;
    var all := before + [name] + later;
    var index := Register(RegisterAll(before), name).index;
    RegisteredLast(before, name);
    IndicesAreStable(before + [name], later);
    IndexInOrder(all, name);
    LookupIsTotal(all, code, index);
  }

  lemma RegisteredLast(before: seq<string>, name: string)
    ensures var r := Register(RegisterAll(before), name);
            RegisterAll(before + [name]) == r.sources && r.index < 256 &&
            (r.index != 0 ==> name in r.sources && r.sources[name] == r.index)
  {
    assert (before + [name])[..|before|] == before;
    PoolIndexes(before);
    RegisterKeepsIndexes(RegisterAll(before), FirstSeen(before), name);
  }

  lemma IndexInOrder(names: seq<string>, name: string)
    ensures var sources, order := RegisterAll(names), FirstSeen(names);
            name in sources ==> 1 <= sources[name] <= |order| && order[sources[name] - 1] == name
  {
    PoolIndexes(names);
  }
}
