/**
 Why leastness needs monotone evaluations: the order of declaration can show.

 Three helpers pass one cancel function down: I hands it to J, J calls it and then hands it
 to K, K stores it.  A hand-off outranks a call in what a caller makes of its callee, so
 what I learns from J is taken back once J has learnt of K, but what is recorded stays.
 */
module EffectOrder {
  import opened Wrappers
  import opened Effects

  datatype Name = I | J | K

  // What passing a parameter to a callee with these effects means for the caller.
  function Applied(e: set<Effect>): set<Effect> {
    if Returns in e || Opaque in e then {Opaque}
    else if Must in e then {May, Must}
    else if May in e then {May}
    else {}
  }

  lemma HandOffNotMonotone()
    ensures {May, Must} <= {May, Must, Opaque} && !(Applied({May, Must}) <= Applied({May, Must, Opaque}))
  {
    assert Must in Applied({May, Must});
  }

  // Each helper's parameter carries the helper's number.
  function ParamOf(f: Name): Param {
    match f case I => 0 case J => 1 case K => 2
  }

  function Body(f: Name, s: State): set<Effect> {
    match f
    case I => if 1 in s then Applied(s[1]) else {}
    case J => {May, Must} + (if 2 in s && Opaque in Applied(s[2]) then {Opaque} else {})
    case K => {Opaque}
  }

  predicate Calls(f: Name, h: Name) {
    (f == I && h == J) || (f == J && h == K)
  }

  function CallersOf(names: seq<Name>, h: Name, n: nat): (r: seq<nat>)
    requires n <= |names|
    ensures forall i: nat :: i in r <==> i < n && Calls(names[i], h)
  {
    if n == 0 then [] else CallersOf(names, h, n - 1) + if Calls(names[n - 1], h) then [n - 1] else []
  }

  function Declared(names: seq<Name>): Program {
    Program(
      seq(|names|, i requires 0 <= i < |names| => {ParamOf(names[i])}),
      (i: nat, s: State) => if i < |names| then [(ParamOf(names[i]), Body(names[i], s))] else [],
      seq(|names|, j requires 0 <= j < |names| => CallersOf(names, names[j], |names|)))
  }

  const JIK := [J, I, K]
  const KJI := [K, J, I]

  predicate EachOnce(names: seq<Name>) {
    |names| == 3 && I in names && J in names && K in names && forall i, j :: 0 <= i < j < |names| ==>
      names[i] != names[j]
  }

  lemma DeclaredIsValid(names: seq<Name>)
    requires EachOnce(names)
    ensures Valid(Declared(names))
  {
    var g := Declared(names);
    forall i: nat, s, t |
      i < |g.params|
        && (forall j: nat :: j < |g.reverse| && i in g.reverse[j] ==> j < |g.params| && Agree(s, t, g.params[j]))
      ensures g.evaluate(i, s) == g.evaluate(i, t)
    {
      forall h | Calls(names[i], h) ensures Agree(s, t, {ParamOf(h)}) {
        var j :| 0 <= j < |names| && names[j] == h;
        assert i in g.reverse[j] && g.params[j] == {ParamOf(h)};
      }
      SameBody(names[i], s, t);
    }
  }

  lemma SameBody(f: Name, s: State, t: State)
    requires forall h :: Calls(f, h) ==> Agree(s, t, {ParamOf(h)})
    ensures Body(f, s) == Body(f, t)
  {
    assert f == I ==> Calls(f, J);
    assert f == J ==> Calls(f, K);
  }

  lemma OneVisit(names: seq<Name>, order: seq<nat>, i: nat)
    requires i < |names|
    ensures var s := Visits(Declared(names), order);
      Visits(Declared(names), order + [i]) == s[ParamOf(names[i]) := At(s, ParamOf(names[i])) + Body(names[i], s)]
  {
    hide Body;
    var g, s := Declared(names), Visits(Declared(names), order);
    assert (order + [i])[..|order + [i]| - 1] == order;
    var us := g.evaluate(i, s);
    assert us == [(ParamOf(names[i]), Body(names[i], s))] && us[1..] == [];
    var t := s[ParamOf(names[i]) := At(s, ParamOf(names[i])) + Body(names[i], s)];
    assert RecordAll(s, us) == RecordAll(t, us[1..]) == t;
  }

  // The summaries once every function has been evaluated in order.
  lemma FirstVisits(names: seq<Name>)
    requires |names| == 3
    ensures var g := Declared(names);
      Visits(g, [0]) == map[ParamOf(names[0]) := Body(names[0], map[])] &&
      var s1 := Visits(g, [0]);
      var s2 := s1[ParamOf(names[1]) := At(s1, ParamOf(names[1])) + Body(names[1], s1)];
      Visits(g, [0, 1]) == s2 &&
      Visits(g, [0, 1, 2]) == s2[ParamOf(names[2]) := At(s2, ParamOf(names[2])) + Body(names[2], s2)]
  {
    hide Body;
    OneVisit(names, [], 0);
    OneVisit(names, [0], 1);
    OneVisit(names, [0, 1], 2);
    assert [] + [0] == [0] && [0] + [1] == [0, 1] && [0, 1] + [2] == [0, 1, 2];
    assert Visits(Declared(names), []) == map[] && {} + Body(names[0], map[]) == Body(names[0], map[]);
  }

  // With J before I before K, I is credited with calling the function.
  lemma {:induction false} KeptCredit(order: seq<nat>)
    requires |order| >= 3 && order[..3] == [0, 1, 2]
    ensures var s := Visits(Declared(JIK), order); 0 in s && Must in s[0]
    decreases |order|
  {
    hide Declared;
    if |order| == 3 {
      assert order == [0, 1, 2];
      FirstVisits(JIK);
    } else {
      var before := order[..|order| - 1];
      assert before[..3] == [0, 1, 2];
      KeptCredit(before);
      var s := Visits(Declared(JIK), before);
      RecordedAbsorbs(s, Declared(JIK).evaluate(order[|order| - 1], s));
    }
  }

  // With K first, I only ever hands it on.
  const LEARNT: State := map[0 := {Opaque}, 1 := {May, Must, Opaque}, 2 := {Opaque}]

  lemma {:induction false} NoCredit(order: seq<nat>)
    requires |order| >= 3 && order[..3] == [0, 1, 2]
    ensures Visits(Declared(KJI), order) == LEARNT
    decreases |order|
  {
    hide Declared;
    if |order| == 3 {
      assert order == [0, 1, 2];
      FirstVisits(KJI);
      var s1 := map[2 := {Opaque}];
      assert Body(J, s1) == {May, Must, Opaque} && {} + Body(J, s1) == Body(J, s1);
      var s2 := s1[1 := {May, Must, Opaque}];
      assert Body(I, s2) == {Opaque} && {} + Body(I, s2) == Body(I, s2);
      assert s2[0 := {Opaque}] == LEARNT;
    } else {
      var before, i := order[..|order| - 1], order[|order| - 1];
      assert before[..3] == [0, 1, 2];
      NoCredit(before);
      LearntStays(i);
    }
  }

  lemma LearntStays(i: nat)
    ensures RecordAll(LEARNT, Declared(KJI).evaluate(i, LEARNT)) == LEARNT
  {
    assert {May, Must} + {Opaque} == {May, Must, Opaque};
    AbsorbedStays(LEARNT, Declared(KJI).evaluate(i, LEARNT));
  }

  // Where each helper of the first order stands in the second.
  const MOVED: seq<nat> := [1, 2, 0]

  // Declaring the same helpers in another order renumbers the program.
  lemma Redeclared(names: seq<Name>, names': seq<Name>, order: seq<nat>)
    requires |names| == |names'| == |order| && forall i: nat :: i < |order| ==>
      order[i] < |order| && names'[order[i]] == names[i]
    requires (forall i: nat, j: nat :: i < j < |order| ==> order[i] != order[j]) && forall k: nat :: k < |order| ==>
      k in order
    ensures Renumbered(Declared(names), Declared(names'), order)
  {
    hide Calls, ParamOf, Body;
    var g, h := Declared(names), Declared(names');
    forall i: nat, j: nat | i < |order| && j < |order| ensures order[i] in h.reverse[order[j]] <==> i in g.reverse[j] {
      assert h.reverse[order[j]] == CallersOf(names', names'[order[j]], |names|)
        && g.reverse[j] == CallersOf(names, names[j], |names|);
    }
  }

  // The same helpers in two orders, both legal inputs: whatever the worklist does after
  // evaluating every function once, it ends in different summaries of I.  So these
  // evaluations are not monotone.
  lemma DeclarationOrderShows(a: seq<nat>, b: seq<nat>)
    requires |a| >= 3 && a[..3] == [0, 1, 2] && |b| >= 3 && b[..3] == [0, 1, 2]
    ensures Valid(Declared(JIK)) && Valid(Declared(KJI)) && Renumbered(Declared(JIK), Declared(KJI), MOVED)
    ensures Must in At(Visits(Declared(JIK), a), 0) && Must !in At(Visits(Declared(KJI), b), 0)
  {
    hide Renumbered, Declared, Visits, Effects.Valid;
    DeclaredIsValid(JIK);
    DeclaredIsValid(KJI);
    assert MOVED[0] == 1 && MOVED[1] == 2 && MOVED[2] == 0;
    Redeclared(JIK, KJI, MOVED);
    KeptCredit(a);
    NoCredit(b);
  }

  // I credits itself with J's call until it knows that J hands on, too.
  lemma NotMonotone()
    ensures !MonotoneEvaluation(Declared(JIK))
  {
    var s: State, t: State := map[1 := {May, Must}], map[0 := {Opaque}, 1 := {May, Must, Opaque}];
    var g := Declared(JIK);
    var us, vs := g.evaluate(1, s), g.evaluate(1, t);
    assert us == [(0, {May, Must})] && vs == [(0, {Opaque})];
    assert vs[1..] == [] && At(t, 0) + {Opaque} == {Opaque};
    assert RecordAll(t, vs) == RecordAll(t[0 := {Opaque}], vs[1..]) == t;
    assert us[0] in us && Must in us[0].1 && Must !in t[0];
    assert Below(s, t) && !Absorbs(RecordAll(t, vs), us);
  }
}
