/**
 Dependency-first waves: packages sorted into levels by their longest dependency chain.
 */
module Levels {
  import opened Wrappers

  // Import paths, numbered in their lexical order.
  type Path = nat

  // importMap holds the imports that resolve to another path.
  datatype Unit = Unit(path: Path, imports: seq<Path>, importMap: map<Path, Path>)

  function Resolved(u: Unit, imported: Path): Path {
    if imported in u.importMap then u.importMap[imported] else imported
  }

  ghost predicate DistinctPaths(units: seq<Unit>) {
    forall i, j :: 0 <= i < j < |units| ==> units[i].path != units[j].path
  }

  // Unit i imports the selected unit j, by its path or one the import map turns into it; an
  // import of itself does not count.
  ghost predicate Dep(units: seq<Unit>, i: nat, j: nat) {
    && i < |units| && j < |units| && i != j
    && exists p ::
      p in units[i].imports && (if p in units[i].importMap then units[i].importMap[p] else p) == units[j].path
  }

  ghost function Deps(units: seq<Unit>, i: nat): set<nat> {
    set j: nat | j < |units| && Dep(units, i, j)
  }

  // Imports leading from one unit to the next.
  ghost predicate IsChain(units: seq<Unit>, chain: seq<nat>) {
    chain != [] && chain[0] < |units| && forall k :: 0 <= k < |chain| - 1 ==> Dep(units, chain[k], chain[k + 1])
  }

  ghost predicate Cyclic(units: seq<Unit>) {
    exists chain :: IsChain(units, chain) && |chain| > 1 && chain[|chain| - 1] == chain[0]
  }

  // The longest dependency chain of unit i has n imports.
  ghost predicate LongestChain(units: seq<Unit>, i: nat, n: nat) {
    && (exists chain :: IsChain(units, chain) && chain[0] == i && |chain| == n + 1)
    && (forall chain :: IsChain(units, chain) && chain[0] == i ==> |chain| <= n + 1)
  }

  /****** The index and the edges ******/

  method IndexByPath(units: seq<Unit>) returns (byPath: map<Path, nat>)
    requires DistinctPaths(units)
    ensures forall p :: p in byPath <==> exists i :: 0 <= i < |units| && units[i].path == p
    ensures forall p :: p in byPath ==> byPath[p] < |units| && units[byPath[p]].path == p
  {
    byPath := map[];
    for i := 0 to |units|
      invariant forall p :: p in byPath <==> exists k :: 0 <= k < i && units[k].path == p
      invariant forall p :: p in byPath ==> byPath[p] < i && units[byPath[p]].path == p
    {
      byPath := byPath[units[i].path := i];
    }
  }

  // The selected dependencies of one unit, each once.
  method DepsOf(units: seq<Unit>, byPath: map<Path, nat>, i: nat) returns (deps: seq<nat>)
    requires DistinctPaths(units) && i < |units|
    requires forall p :: p in byPath <==> exists k :: 0 <= k < |units| && units[k].path == p
    requires forall p :: p in byPath ==> byPath[p] < |units| && units[byPath[p]].path == p
    ensures (forall j: nat :: j in deps <==> j in Deps(units, i)) && |deps| == |Deps(units, i)|
  {
    deps := [];
    ghost var seen: set<nat> := {};
    var imports := units[i].imports;
    for k := 0 to |imports|
      invariant (forall j :: j in deps <==> j in seen) && |deps| == |seen|
      invariant forall j: nat :: j in seen <==>
        j < |units| && j != i && exists m :: 0 <= m < k && Resolved(units[i], imports[m]) == units[j].path
    {
      var path := Resolved(units[i], imports[k]);
      if path !in byPath {
        assert forall j :: 0 <= j < |units| ==> units[j].path != path;
        continue;
      }
      var j := byPath[path];
      assert forall m :: 0 <= m < |units| && units[m].path == path ==> m == j;
      if j == i || j in deps { continue; }
      seen := seen + {j};
      deps := deps + [j];
    }
    assert seen == Deps(units, i) by { Imports(units, i); }
  }

  lemma Imports(units: seq<Unit>, i: nat)
    requires i < |units|
    ensures forall j: nat :: j in Deps(units, i) <==>
      j < |units| && j != i
        && exists m :: 0 <= m < |units[i].imports| && Resolved(units[i], units[i].imports[m]) == units[j].path
  {
    forall j: nat | j < |units| && j != i
      && exists m :: 0 <= m < |units[i].imports| && Resolved(units[i], units[i].imports[m]) == units[j].path
      ensures Dep(units, i, j)
    {
      var m :| 0 <= m < |units[i].imports| && Resolved(units[i], units[i].imports[m]) == units[j].path;
      assert units[i].imports[m] in units[i].imports;
    }
  }

  // Who depends on whom: no dependent is listed twice.
  ghost predicate Reversed(units: seq<Unit>, dependents: seq<seq<nat>>) {
    && |dependents| == |units|
    && (forall j: nat, d: nat :: j < |units| ==> (d in dependents[j] <==> Dep(units, d, j)))
    && (forall j :: 0 <= j < |units| ==> NoRepeats(dependents[j]))
  }

  ghost predicate NoRepeats(s: seq<nat>) {
    forall a, b :: 0 <= a < b < |s| ==> s[a] != s[b]
  }

  method CountEdges(units: seq<Unit>) returns (indegree: array<int>, dependents: seq<seq<nat>>)
    requires DistinctPaths(units)
    ensures fresh(indegree) && indegree.Length == |units| && forall i :: 0 <= i < |units| ==>
      indegree[i] == |Deps(units, i)|
    ensures Reversed(units, dependents)
  {
    hide Deps, Dep, DistinctPaths;
    var byPath := IndexByPath(units);
    indegree := new int[|units|](_ => 0);
    dependents := seq(|units|, _ => []);
    for i := 0 to |units|
      invariant |dependents| == |units|
      invariant forall k :: 0 <= k < |units| ==> indegree[k] == if k < i then |Deps(units, k)| else 0
      invariant forall j: nat, d: nat :: j < |units| ==> (d in dependents[j] <==> d < i && Dep(units, d, j))
      invariant forall j :: 0 <= j < |units| ==> NoRepeats(dependents[j])
    {
      var deps := DepsOf(units, byPath, i);
      DepsInRange(units, i);
      DepsDistinct(deps, Deps(units, i));
      indegree[i] := |deps|;
      dependents := Link(i, deps, dependents);
    }
    DepsBelow(units);
  }

  // Lists i as a dependent of each of its dependencies.
  method Link(i: nat, deps: seq<nat>, dependents: seq<seq<nat>>) returns (linked: seq<seq<nat>>)
    requires NoRepeats(deps) && forall j :: j in deps ==> j < |dependents|
    requires forall j :: 0 <= j < |dependents| ==> NoRepeats(dependents[j]) && i !in dependents[j]
    ensures |linked| == |dependents| && forall j :: 0 <= j < |linked| ==> NoRepeats(linked[j])
    ensures forall j: nat, d: nat :: j < |linked| ==> (d in linked[j] <==> d in dependents[j] || (d == i && j in deps))
  {
    linked := dependents;
    for k := 0 to |deps|
      invariant |linked| == |dependents| && forall j :: 0 <= j < |linked| ==> NoRepeats(linked[j])
      invariant forall j :: 0 <= j < |linked| ==>
        linked[j] == if j in deps[..k] then dependents[j] + [i] else dependents[j]
    {
      assert deps[k] in deps && deps[..k + 1] == deps[..k] + [deps[k]];
      NotBefore(deps, k);
      linked := linked[deps[k] := linked[deps[k]] + [i]];
    }
    assert deps[..|deps|] == deps;
  }

  lemma NotBefore(s: seq<nat>, k: nat)
    requires NoRepeats(s) && k < |s|
    ensures s[k] !in s[..k]
  {
    forall m | 0 <= m < k ensures s[..k][m] != s[k] {}
  }

  lemma DepsBelow(units: seq<Unit>)
    ensures forall i: nat, j: nat :: Dep(units, i, j) ==> i < |units| && j < |units| && i != j
  {}

  lemma DepsInRange(units: seq<Unit>, i: nat)
    ensures forall j: nat :: j in Deps(units, i) <==> Dep(units, i, j)
    ensures forall j: nat :: Dep(units, i, j) ==> i < |units| && j < |units| && j != i
  {}

  lemma DepsDistinct(deps: seq<nat>, s: set<nat>)
    requires (forall j :: j in deps <==> j in s) && |deps| == |s|
    ensures NoRepeats(deps)
  {
    if a, b :| 0 <= a < b < |deps| && deps[a] == deps[b] {
      var rest := deps[..b] + deps[b + 1..];
      forall j | j in s ensures j in rest {
        var m :| 0 <= m < |deps| && deps[m] == j;
        if m < b { assert rest[m] == j; } else if m > b { assert rest[m - 1] == j; } else { assert rest[a] == j; }
      }
      SetOfSeq(rest, s);
    }
  }

  lemma {:induction false} SetOfSeq(list: seq<nat>, s: set<nat>)
    requires forall j :: j in s ==> j in list
    ensures |s| <= |list|
    decreases list
  {
    if list != [] {
      assert forall j :: j in s - {list[0]} ==> j in list[1..];
      SetOfSeq(list[1..], s - {list[0]});
      assert s <= (s - {list[0]}) + {list[0]};
      Sizes(s, list[0]);
    } else {
      assert s == {};
    }
  }

  lemma Sizes(s: set<nat>, x: nat)
    ensures |s| <= |s - {x}| + 1
  {
    if x in s { assert s == (s - {x}) + {x}; } else { assert s == s - {x}; }
  }

  /****** Order within a level ******/

  predicate InRange(units: seq<Unit>, s: seq<nat>) {
    forall k :: 0 <= k < |s| ==> s[k] < |units|
  }

  predicate Ordered(units: seq<Unit>, s: seq<nat>)
    requires InRange(units, s)
  {
    forall a, b :: 0 <= a < b < |s| ==> units[s[a]].path <= units[s[b]].path
  }

  lemma NoRepeatsCons(x: nat, s: seq<nat>)
    ensures NoRepeats([x] + s) <==> x !in s && NoRepeats(s)
  {
    var r := [x] + s;
    if NoRepeats(r) {
      forall k | 0 <= k < |s| ensures s[k] != x { assert r[k + 1] == s[k] && r[0] == x; }
      forall a, b | 0 <= a < b < |s| ensures s[a] != s[b] { assert r[a + 1] == s[a] && r[b + 1] == s[b]; }
    }
  }

  function Insert(units: seq<Unit>, x: nat, s: seq<nat>): (r: seq<nat>)
    requires x < |units| && InRange(units, s) && Ordered(units, s)
    ensures InRange(units, r) && Ordered(units, r) && forall y :: y in r <==> y == x || y in s
  {
    if s == [] then [x]
    else if units[x].path <= units[s[0]].path then [x] + s
    else
      var r := Insert(units, x, s[1..]);
      assert s == [s[0]] + s[1..];
      assert forall k :: 0 <= k < |r| ==> r[k] in r && (r[k] == x || r[k] in s[1..]);
      [s[0]] + r
  }

  lemma {:induction false} InsertNoRepeats(units: seq<Unit>, x: nat, s: seq<nat>)
    requires x < |units| && InRange(units, s) && Ordered(units, s) && NoRepeats(s) && x !in s
    ensures NoRepeats(Insert(units, x, s))
  {
    if s != [] {
      assert s == [s[0]] + s[1..];
      NoRepeatsCons(s[0], s[1..]);
      NoRepeatsCons(x, s);
      if units[x].path > units[s[0]].path {
        InsertNoRepeats(units, x, s[1..]);
        NoRepeatsCons(s[0], Insert(units, x, s[1..]));
      }
    }
  }

  function SortByPath(units: seq<Unit>, s: seq<nat>): (r: seq<nat>)
    requires InRange(units, s)
    ensures InRange(units, r) && Ordered(units, r) && forall y :: y in r <==> y in s
  {
    if s == [] then []
    else
      assert s == [s[0]] + s[1..];
      Insert(units, s[0], SortByPath(units, s[1..]))
  }

  lemma {:induction false} SortNoRepeats(units: seq<Unit>, s: seq<nat>)
    requires InRange(units, s) && NoRepeats(s)
    ensures NoRepeats(SortByPath(units, s))
  {
    if s != [] {
      assert s == [s[0]] + s[1..];
      NoRepeatsCons(s[0], s[1..]);
      SortNoRepeats(units, s[1..]);
      InsertNoRepeats(units, s[0], SortByPath(units, s[1..]));
    }
  }

  /****** Peeling one level off ******/

  ghost function Members(s: seq<nat>): set<nat> {
    set i | i in s
  }

  // indegree counts the dependencies outside done.
  ghost predicate Counts(units: seq<Unit>, indegree: seq<int>, done: set<nat>) {
    |indegree| == |units| && forall i :: 0 <= i < |units| ==> indegree[i] == |Deps(units, i) - done|
  }

  lemma OneLess(s: set<nat>, done: set<nat>, x: nat)
    ensures |s - (done + {x})| == |s - done| - if x in s && x !in done then 1 else 0
  {
    if x in s && x !in done {
      assert s - done == (s - (done + {x})) + {x};
    } else {
      assert s - done == s - (done + {x});
    }
  }

  lemma EmptyMeansWithin(s: set<nat>, done: set<nat>)
    ensures |s - done| == 0 <==> s <= done
  {
    if s <= done { assert s - done == {}; }
    if |s - done| == 0 { assert s - done == {}; forall x | x in s ensures x in done { assert x !in s - done; } }
  }

  // x is being done: the dependents in told have been told.
  ghost predicate Telling(units: seq<Unit>, indegree: seq<int>, x: nat, done: set<nat>, told: seq<nat>) {
    |indegree| == |units| &&
    forall i :: 0 <= i < |units| ==> indegree[i] == |Deps(units, i) - if i in told then done + {x} else done|
  }

  lemma TellOne(units: seq<Unit>, indegree: seq<int>, x: nat, done: set<nat>, told: seq<nat>, d: nat)
    requires Telling(units, indegree, x, done, told) && d < |units| && Dep(units, d, x) && x !in done && d !in told
    ensures Telling(units, indegree[d := indegree[d] - 1], x, done, told + [d])
    ensures indegree[d] - 1 == 0 <==> Deps(units, d) <= done + {x}
  {
    hide Deps, Dep;
    Dependent(units, d, x, done);
  }

  lemma AllTold(units: seq<Unit>, indegree: seq<int>, x: nat, done: set<nat>, told: seq<nat>)
    requires Telling(units, indegree, x, done, told) && forall d: nat :: d in told <==> Dep(units, d, x)
    ensures Counts(units, indegree, done + {x})
  {
    hide Deps, Dep;
    forall i | 0 <= i < |units| ensures indegree[i] == |Deps(units, i) - (done + {x})| {
      if i !in told { NotDependent(units, i, x, done); }
    }
  }

  // x is done: its dependents have one dependency less, and some have none left.
  method PeelOne(units: seq<Unit>, x: nat, dependents: seq<seq<nat>>, indegree: array<int>, ghost done: set<nat>,
      next: seq<nat>) returns (next': seq<nat>)
    requires Reversed(units, dependents) && x < |units| && x !in done && Counts(units, indegree[..], done)
    requires NoRepeats(next) && forall i :: i in next ==> i < |units| && Deps(units, i) <= done
    modifies indegree
    ensures Counts(units, indegree[..], done + {x}) && NoRepeats(next')
    ensures forall i: nat :: i in next' <==> i in next || (Dep(units, i, x) && Deps(units, i) <= done + {x})
  {
    hide Deps, Dep, Telling;
    next' := next;
    var ds := dependents[x];
    DepsBelow(units);
    assert forall d :: d in ds <==> Dep(units, d, x);
    assert Telling(units, indegree[..], x, done, []) by { NoneTold(units, indegree[..], x, done); }
    for b := 0 to |ds|
      invariant Telling(units, indegree[..], x, done, ds[..b]) && indegree.Length == |units|
      invariant NoRepeats(next') && forall i: nat :: i in next' <==>
        i in next || (i in ds[..b] && Deps(units, i) <= done + {x})
    {
      var d := ds[b];
      assert d in ds && ds[..b + 1] == ds[..b] + [d];
      NotBefore(ds, b);
      Dependent(units, d, x, done);
      ghost var before := indegree[..];
      TellOne(units, before, x, done, ds[..b], d);
      indegree[d] := indegree[d] - 1;
      assert indegree[..] == before[d := before[d] - 1];
      if indegree[d] == 0 {
        assert d !in next;
        next' := next' + [d];
      }
    }
    assert ds[..|ds|] == ds;
    AllTold(units, indegree[..], x, done, ds);
  }

  lemma NoneTold(units: seq<Unit>, indegree: seq<int>, x: nat, done: set<nat>)
    requires Counts(units, indegree, done)
    ensures Telling(units, indegree, x, done, [])
  {
    hide Deps;
  }

  lemma NotDependent(units: seq<Unit>, i: nat, x: nat, done: set<nat>)
    requires !Dep(units, i, x)
    ensures |Deps(units, i) - done| == |Deps(units, i) - (done + {x})|
  {
    DepsInRange(units, i);
    OneLess(Deps(units, i), done, x);
  }

  lemma Dependent(units: seq<Unit>, d: nat, x: nat, done: set<nat>)
    requires Dep(units, d, x) && x !in done
    ensures |Deps(units, d) - (done + {x})| == |Deps(units, d) - done| - 1 && !(Deps(units, d) <= done)
    ensures |Deps(units, d) - (done + {x})| == 0 <==> Deps(units, d) <= done + {x}
  {
    DepsInRange(units, d);
    OneLess(Deps(units, d), done, x);
    EmptyMeansWithin(Deps(units, d), done + {x});
  }

  method PeelLevel(units: seq<Unit>, level: seq<nat>, dependents: seq<seq<nat>>, indegree: array<int>,
      ghost done: set<nat>) returns (next: seq<nat>)
    requires Reversed(units, dependents) && Counts(units, indegree[..], done) && NoRepeats(level)
    requires forall i :: i in level ==> i < |units| && i !in done
    modifies indegree
    ensures Counts(units, indegree[..], done + Members(level)) && NoRepeats(next) && InRange(units, next)
    ensures forall i: nat :: i in next <==>
      i < |units| && Deps(units, i) <= done + Members(level) && !(Deps(units, i) <= done)
  {
    hide Deps, Dep, Counts;
    next := [];
    assert done + Members(level[..0]) == done;
    for a := 0 to |level|
      invariant Counts(units, indegree[..], done + Members(level[..a])) && NoRepeats(next)
      invariant forall i: nat :: i in next <==>
        i < |units| && Deps(units, i) <= done + Members(level[..a]) && !(Deps(units, i) <= done)
    {
      var x := level[a];
      ghost var before := done + Members(level[..a]);
      assert x in level && level[..a + 1] == level[..a] + [x];
      NotBefore(level, a);
      assert before + {x} == done + Members(level[..a + 1]);
      ghost var next0 := next;
      next := PeelOne(units, x, dependents, indegree, before, next);
      forall i: nat ensures i in next <==> i < |units| && Deps(units, i) <= before + {x} && !(Deps(units, i) <= done) {
        NewlyWithin(units, i, done, before, x);
      }
    }
    assert level[..|level|] == level;
    forall k | 0 <= k < |next| ensures next[k] < |units| { assert next[k] in next; }
  }

  lemma NewlyWithin(units: seq<Unit>, i: nat, done: set<nat>, before: set<nat>, x: nat)
    requires done <= before && x !in before && x < |units|
    ensures (i < |units| && Deps(units, i) <= before && !(Deps(units, i) <= done))
      || (Dep(units, i, x) && Deps(units, i) <= before + {x})
      <==> i < |units| && Deps(units, i) <= before + {x} && !(Deps(units, i) <= done)
  {
    hide Dep;
    DepsInRange(units, i);
    if Dep(units, i, x) { assert x in Deps(units, i) && x !in done; }
    if Deps(units, i) <= before + {x} && !Dep(units, i, x) { assert x !in Deps(units, i); }
  }

  /****** All levels ******/

  ghost function Placed(levels: seq<seq<nat>>): set<nat> {
    if levels == [] then {} else Placed(levels[..|levels| - 1]) + Members(levels[|levels| - 1])
  }

  ghost predicate Within(units: seq<Unit>, levels: seq<seq<nat>>) {
    && (forall l, i :: 0 <= l < |levels| && i in levels[l] ==> i < |units|)
    && (forall l :: 0 <= l < |levels| ==>
      levels[l] != [] && NoRepeats(levels[l]) && InRange(units, levels[l]) && Ordered(units, levels[l]))
    && (forall l, m, i :: 0 <= l < m < |levels| && i in levels[l] ==> i !in levels[m])
  }

  // Dependencies come in earlier levels, and one of them in the level just before.
  ghost predicate DependencyFirst(units: seq<Unit>, levels: seq<seq<nat>>) {
    && (forall l, i: nat, j: nat :: 0 <= l < |levels| && i in levels[l] && Dep(units, i, j) ==>
      j in Placed(levels[..l]))
    && (forall l, i :: 0 < l < |levels| && i in levels[l] ==> DependsOn(units, i, levels[l - 1]))
  }

  ghost predicate DependsOn(units: seq<Unit>, i: nat, level: seq<nat>) {
    exists j: nat :: Dep(units, i, j) && j in level
  }

  lemma {:induction false} PlacedIn(levels: seq<seq<nat>>, i: nat)
    ensures i in Placed(levels) <==> exists l :: 0 <= l < |levels| && i in levels[l]
    decreases |levels|
  {
    if levels != [] {
      var rest := levels[..|levels| - 1];
      PlacedIn(rest, i);
      if l :| 0 <= l < |rest| && i in rest[l] { assert i in levels[l]; }
      if l :| 0 <= l < |levels| && i in levels[l] { if l < |rest| { assert i in rest[l]; } }
    }
  }

  // The units that can be analysed next.
  ghost predicate AreReady(units: seq<Unit>, levels: seq<seq<nat>>, ready: seq<nat>) {
    && NoRepeats(ready) && InRange(units, ready) && Ordered(units, ready)
    && (forall i: nat :: i in ready <==> i < |units| && i !in Placed(levels) && Deps(units, i) <= Placed(levels))
    && (levels != [] ==> forall i :: i in ready ==> DependsOn(units, i, levels[|levels| - 1]))
  }

  ghost predicate Layered(units: seq<Unit>, levels: seq<seq<nat>>) {
    Within(units, levels) && DependencyFirst(units, levels)
  }

  lemma AddLevel(units: seq<Unit>, levels: seq<seq<nat>>, ready: seq<nat>)
    requires Layered(units, levels) && AreReady(units, levels, ready) && ready != []
    ensures Layered(units, levels + [ready]) && Placed(levels + [ready]) == Placed(levels) + Members(ready)
  {
    hide Dep, Deps, Within, DependencyFirst;
    StillWithin(units, levels, ready);
    StillFirst(units, levels, ready);
    assert (levels + [ready])[..|levels|] == levels;
  }

  lemma StillWithin(units: seq<Unit>, levels: seq<seq<nat>>, ready: seq<nat>)
    requires Within(units, levels) && NoRepeats(ready) && InRange(units, ready) && Ordered(units, ready) && ready != []
    requires forall i: nat :: i in ready ==> i !in Placed(levels)
    ensures Within(units, levels + [ready])
  {
    hide Dep, Deps;
    var more := levels + [ready];
    forall l, m, i | 0 <= l < m < |more| && i in more[l] ensures i !in more[m] {
      if m == |levels| { PlacedIn(levels, i); }
    }
  }

  lemma StillFirst(units: seq<Unit>, levels: seq<seq<nat>>, ready: seq<nat>)
    requires DependencyFirst(units, levels)
    requires forall i: nat :: i in ready ==> Deps(units, i) <= Placed(levels)
    requires levels != [] ==> forall i :: i in ready ==> DependsOn(units, i, levels[|levels| - 1])
    ensures DependencyFirst(units, levels + [ready])
  {
    hide Dep;
    var more := levels + [ready];
    forall l, i: nat, j: nat | 0 <= l < |more| && i in more[l] && Dep(units, i, j) ensures j in Placed(more[..l]) {
      assert more[..l] == levels[..l];
      DepsInRange(units, i);
      if l == |levels| { assert j in Deps(units, i); assert levels[..l] == levels; }
    }
  }

  lemma NextReady(units: seq<Unit>, levels: seq<seq<nat>>, ready: seq<nat>, next: seq<nat>)
    requires Layered(units, levels) && AreReady(units, levels, ready) && ready != []
    requires NoRepeats(next) && InRange(units, next) && Ordered(units, next)
    requires forall i: nat :: i in next <==>
      i < |units| && Deps(units, i) <= Placed(levels) + Members(ready) && !(Deps(units, i) <= Placed(levels))
    ensures AreReady(units, levels + [ready], next)
  {
    hide Dep, Layered;
    AddLevel(units, levels, ready);
    var more := levels + [ready];
    forall i: nat ensures i in next <==> i < |units| && i !in Placed(more) && Deps(units, i) <= Placed(more) {
      if i in Placed(levels) && i < |units| { PlacedClosed(units, levels, i); }
    }
    forall i | i in next ensures DependsOn(units, i, more[|more| - 1]) {
      var j :| j in Deps(units, i) && j !in Placed(levels);
      DepsInRange(units, i);
    }
  }

  lemma {:induction false} PlacedClosed(units: seq<Unit>, levels: seq<seq<nat>>, i: nat)
    requires Layered(units, levels) && i in Placed(levels)
    ensures Deps(units, i) <= Placed(levels)
  {
    hide Dep;
    PlacedIn(levels, i);
    var l :| 0 <= l < |levels| && i in levels[l];
    DepsInRange(units, i);
    forall j | j in Deps(units, i) ensures j in Placed(levels) {
      PlacedIn(levels[..l], j);
      var m :| 0 <= m < l && j in levels[..l][m];
      assert j in levels[m];
      PlacedIn(levels, j);
    }
  }

  lemma {:induction false} CountPlaced(units: seq<Unit>, levels: seq<seq<nat>>, ready: seq<nat>)
    requires AreReady(units, levels, ready)
    ensures |Placed(levels) + Members(ready)| == |Placed(levels)| + |ready|
  {
    assert Placed(levels) !! Members(ready);
    MembersSize(ready);
  }

  lemma {:induction false} MembersSize(s: seq<nat>)
    requires NoRepeats(s)
    ensures |Members(s)| == |s|
  {
    if s != [] {
      MembersSize(s[1..]);
      assert s == [s[0]] + s[1..];
      assert s[0] !in s[1..] by {
        forall m | 0 <= m < |s[1..]| ensures s[1..][m] != s[0] { assert s[1..][m] == s[m + 1]; }
      }
      assert Members(s) == Members(s[1..]) + {s[0]};
    }
  }

  ghost function Indices(n: nat): (r: set<nat>)
    ensures |r| == n && forall i: nat :: i in r <==> i < n
  {
    if n == 0 then {} else Indices(n - 1) + {n - 1}
  }

  /****** Cycles ******/

  ghost predicate DependsWithin(units: seq<Unit>, i: nat, R: set<nat>) {
    exists j: nat :: j in R && Dep(units, i, j)
  }

  // A set every member of which depends on another member holds a cycle.
  lemma {:induction false} StuckIsCyclic(units: seq<Unit>, R: set<nat>, chain: seq<nat>)
    requires IsChain(units, chain) && NoRepeats(chain) && Members(chain) <= R
    requires forall i :: i in R ==> DependsWithin(units, i, R)
    ensures Cyclic(units)
    decreases |R| - |chain|
  {
    var x := chain[|chain| - 1];
    hide Dep, IsChain, Cyclic, NoRepeats;
    MembersSize(chain);
    Subset(Members(chain), R);
    assert x in Members(chain);
    var j: nat :| j in R && Dep(units, x, j);
    Extends(units, chain, j);
    if j in chain {
      Closes(units, chain, j);
    } else {
      Longer(chain, j, R);
      StuckIsCyclic(units, R, chain + [j]);
    }
  }

  lemma Extends(units: seq<Unit>, chain: seq<nat>, j: nat)
    requires IsChain(units, chain) && Dep(units, chain[|chain| - 1], j)
    ensures IsChain(units, chain + [j])
  {
    hide Dep;
    var more := chain + [j];
    forall k | 0 <= k < |more| - 1 ensures Dep(units, more[k], more[k + 1]) {
      if k < |chain| - 1 { assert Dep(units, chain[k], chain[k + 1]); }
    }
  }

  lemma Closes(units: seq<Unit>, chain: seq<nat>, j: nat)
    requires IsChain(units, chain + [j]) && j in chain
    ensures Cyclic(units)
  {
    hide Dep;
    var a :| 0 <= a < |chain| && chain[a] == j;
    var cycle := (chain + [j])[a..];
    DepsBelow(units);
    assert Dep(units, (chain + [j])[a], (chain + [j])[a + 1]);
    forall k | 0 <= k < |cycle| - 1 ensures Dep(units, cycle[k], cycle[k + 1]) {
      assert Dep(units, (chain + [j])[a + k], (chain + [j])[a + k + 1]);
    }
    assert IsChain(units, cycle) && cycle[|cycle| - 1] == j == cycle[0];
  }

  lemma Longer(chain: seq<nat>, j: nat, R: set<nat>)
    requires NoRepeats(chain) && j !in chain && Members(chain) <= R && j in R
    ensures NoRepeats(chain + [j]) && Members(chain + [j]) <= R && |chain| < |R|
  {
    MembersSize(chain);
    Subset(Members(chain) + {j}, R);
    assert |Members(chain) + {j}| == |chain| + 1;
  }

  // Along a chain levels go down.
  lemma {:induction false} ChainDescends(units: seq<Unit>, levels: seq<seq<nat>>, chain: seq<nat>, l: nat)
    returns (m: nat)
    requires Layered(units, levels) && IsChain(units, chain) && l < |levels| && chain[0] in levels[l]
    ensures m + |chain| <= l + 1 && chain[|chain| - 1] in levels[m]
    decreases |chain|
  {
    hide Dep;
    m := l;
    if |chain| > 1 {
      assert Dep(units, chain[0], chain[1]);
      PlacedIn(levels[..l], chain[1]);
      var k :| 0 <= k < l && chain[1] in levels[..l][k];
      assert chain[1] in levels[k] && chain[1..][0] == chain[1];
      DepsBelow(units);
      forall k | 0 <= k < |chain[1..]| - 1 ensures Dep(units, chain[1..][k], chain[1..][k + 1]) {
        assert Dep(units, chain[k + 1], chain[k + 2]);
      }
      m := ChainDescends(units, levels, chain[1..], k);
    }
  }

  lemma {:induction false} ChainOfLevel(units: seq<Unit>, levels: seq<seq<nat>>, l: nat, i: nat)
    returns (chain: seq<nat>)
    requires Layered(units, levels) && l < |levels| && i in levels[l]
    ensures IsChain(units, chain) && chain[0] == i && |chain| == l + 1
    decreases l
  {
    hide Dep;
    if l == 0 {
      chain := [i];
    } else {
      var j: nat :| Dep(units, i, j) && j in levels[l - 1];
      var rest := ChainOfLevel(units, levels, l - 1, j);
      chain := [i] + rest;
      forall k | 0 <= k < |chain| - 1 ensures Dep(units, chain[k], chain[k + 1]) {
        if k > 0 { assert Dep(units, rest[k - 1], rest[k]); }
      }
    }
  }

  // A unit's level is the length of its longest dependency chain.
  lemma LevelIsLongest(units: seq<Unit>, levels: seq<seq<nat>>, l: nat, i: nat)
    requires Layered(units, levels) && l < |levels| && i in levels[l]
    ensures LongestChain(units, i, l)
  {
    hide Dep, Layered;
    var chain := ChainOfLevel(units, levels, l, i);
    forall c | IsChain(units, c) && c[0] == i ensures |c| <= l + 1 { var m := ChainDescends(units, levels, c, l); }
  }

  lemma AllPlacedIsAcyclic(units: seq<Unit>, levels: seq<seq<nat>>)
    requires Layered(units, levels) && forall i: nat :: i < |units| ==> i in Placed(levels)
    ensures !Cyclic(units)
  {
    hide Dep;
    if Cyclic(units) {
      var chain :| IsChain(units, chain) && |chain| > 1 && chain[|chain| - 1] == chain[0];
      PlacedIn(levels, chain[0]);
      var l :| 0 <= l < |levels| && chain[0] in levels[l];
      var m := ChainDescends(units, levels, chain, l);
    }
  }

  lemma SomeLeftIsCyclic(units: seq<Unit>, levels: seq<seq<nat>>)
    requires Layered(units, levels) && AreReady(units, levels, []) && |Placed(levels)| != |units|
    ensures Cyclic(units)
  {
    hide Dep, Layered, AreReady, DependsWithin, Placed, Deps;
    var R := Indices(|units|) - Placed(levels);
    var x := SomeLeft(units, levels);
    forall i | i in R ensures DependsWithin(units, i, R) { LeftDepends(units, levels, i); }
    StuckIsCyclic(units, R, [x]);
  }

  lemma SomeLeft(units: seq<Unit>, levels: seq<seq<nat>>) returns (x: nat)
    requires Layered(units, levels) && |Placed(levels)| != |units|
    ensures x in Indices(|units|) - Placed(levels)
  {
    hide Layered;
    forall i | i in Placed(levels) ensures i in Indices(|units|) { InRangeOf(units, levels, i); }
    assert Indices(|units|) == Placed(levels) + (Indices(|units|) - Placed(levels));
    x :| x in Indices(|units|) - Placed(levels);
  }

  lemma LeftDepends(units: seq<Unit>, levels: seq<seq<nat>>, i: nat)
    requires AreReady(units, levels, []) && i in Indices(|units|) - Placed(levels)
    ensures DependsWithin(units, i, Indices(|units|) - Placed(levels))
  {
    hide Dep;
    assert i !in [];
    var j :| j in Deps(units, i) && j !in Placed(levels);
    DepsInRange(units, i);
  }

  lemma InRangeOf(units: seq<Unit>, levels: seq<seq<nat>>, i: nat)
    requires Layered(units, levels) && i in Placed(levels)
    ensures i < |units|
  {
    PlacedIn(levels, i);
  }

  // The paths rise along a level.
  ghost predicate ByPath(units: seq<Unit>, level: seq<nat>) {
    forall a, b :: 0 <= a < b < |level| ==>
      level[a] < |units| && level[b] < |units| && units[level[a]].path < units[level[b]].path
  }

  lemma LevelsByPath(units: seq<Unit>, levels: seq<seq<nat>>)
    requires DistinctPaths(units) && Layered(units, levels)
    ensures forall l :: 0 <= l < |levels| ==> ByPath(units, levels[l])
  {
    hide DependencyFirst;
    forall l, a, b | 0 <= l < |levels| && 0 <= a < b < |levels[l]|
      ensures levels[l][a] < |units| && levels[l][b] < |units|
      ensures units[levels[l][a]].path < units[levels[l][b]].path
    {
      var level := levels[l];
      assert Ordered(units, level) && NoRepeats(level) && InRange(units, level);
      assert level[a] != level[b] && units[level[a]].path <= units[level[b]].path;
    }
  }

  // analysisLevels: an error exactly when selected packages import each other in a circle;
  // otherwise every package is in exactly one level, the one numbered by the length of its
  // longest dependency chain, so its dependencies are in earlier ones.
  method AnalysisLevels(units: seq<Unit>) returns (result: Option<seq<seq<nat>>>)
    requires DistinctPaths(units)
    ensures result.None? <==> Cyclic(units)
    ensures result.Some? ==> Layered(units, result.value) && forall i: nat :: i < |units| <==> i in Placed(result.value)
    ensures result.Some? ==> forall l: nat, i: nat :: l < |result.value| && i in result.value[l] ==>
      LongestChain(units, i, l)
    ensures result.Some? ==> forall l :: 0 <= l < |result.value| ==> ByPath(units, result.value[l])
  {
    hide Deps, Dep, Layered, AreReady, Cyclic, LongestChain, Reversed, DistinctPaths, ByPath;
    var indegree, dependents := CountEdges(units);
    var first: seq<nat> := [];
    for i := 0 to |units|
      invariant NoRepeats(first) && InRange(units, first) && forall k: nat :: k in first <==> k < i && indegree[k] == 0
    {
      if indegree[i] == 0 { first := first + [i]; }
    }
    var ready := SortByPath(units, first);
    SortNoRepeats(units, first);
    var levels: seq<seq<nat>> := [];
    var processed := 0;
    assert Layered(units, levels) && AreReady(units, levels, ready) && Counts(units, indegree[..], Placed(levels)) by {
      Starts(units, indegree[..], ready);
    }
    while |ready| != 0
      invariant Layered(units, levels) && AreReady(units, levels, ready) && Counts(units, indegree[..], Placed(levels))
      invariant processed == |Placed(levels)|
      decreases |units| - processed
    {
      ReadyFacts(units, levels, ready);
      AddLevel(units, levels, ready);
      CountPlaced(units, levels, ready);
      var next := PeelLevel(units, ready, dependents, indegree, Placed(levels));
      SortNoRepeats(units, next);
      NextReady(units, levels, ready, SortByPath(units, next));
      levels := levels + [ready];
      processed := processed + |ready|;
      PlacedBound(units, levels);
      ready := SortByPath(units, next);
    }
    if processed != |units| {
      assert ready == [];
      SomeLeftIsCyclic(units, levels);
      return None;
    }
    AllPlaced(units, levels);
    AllPlacedIsAcyclic(units, levels);
    LevelsByPath(units, levels);
    forall l: nat, i: nat | l < |levels| && i in levels[l] ensures LongestChain(units, i, l) {
      LevelIsLongest(units, levels, l, i);
    }
    return Some(levels);
  }

  lemma Starts(units: seq<Unit>, indegree: seq<int>, ready: seq<nat>)
    requires |indegree| == |units| && forall i :: 0 <= i < |units| ==> indegree[i] == |Deps(units, i)|
    requires NoRepeats(ready) && InRange(units, ready) && Ordered(units, ready) && forall k: nat :: k in ready <==>
      k < |units| && indegree[k] == 0
    ensures Layered(units, []) && AreReady(units, [], ready) && Counts(units, indegree, {})
  {
    hide Deps;
    forall i: nat | i < |units|
      ensures indegree[i] == |Deps(units, i) - {}| && (indegree[i] == 0 <==> Deps(units, i) <= {}) {
      assert Deps(units, i) - {} == Deps(units, i);
      EmptyMeansWithin(Deps(units, i), {});
    }
  }

  lemma ReadyFacts(units: seq<Unit>, levels: seq<seq<nat>>, ready: seq<nat>)
    requires AreReady(units, levels, ready)
    ensures NoRepeats(ready) && InRange(units, ready) && forall i :: i in ready ==> i < |units| && i !in Placed(levels)
  {
    forall i | i in ready ensures i < |units| { var k :| 0 <= k < |ready| && ready[k] == i; }
  }

  lemma PlacedBound(units: seq<Unit>, levels: seq<seq<nat>>)
    requires Layered(units, levels)
    ensures |Placed(levels)| <= |units|
  {
    forall i | i in Placed(levels) ensures i in Indices(|units|) { InRangeOf(units, levels, i); }
    Subset(Placed(levels), Indices(|units|));
  }

  lemma AllPlaced(units: seq<Unit>, levels: seq<seq<nat>>)
    requires Layered(units, levels) && |Placed(levels)| == |units|
    ensures forall i: nat :: i < |units| <==> i in Placed(levels)
  {
    forall i | i in Placed(levels) ensures i in Indices(|units|) { InRangeOf(units, levels, i); }
    if i: nat :| i < |units| && i !in Placed(levels) {
      Subset(Placed(levels), Indices(|units|) - {i});
    }
  }
}
