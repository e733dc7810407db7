/**
 The parameter-effect worklist: one evaluation of every function, and another of each caller
 whenever a summary grows.
 */
module Effects {
  import opened Wrappers

  datatype Effect = May | Must | Returns | Opaque

  type Param = nat

  // Recorded summaries.  An absent parameter has not been analysed, which differs from an
  // empty set of effects.
  type State = map<Param, set<Effect>>

  type Update = (Param, set<Effect>)

  // Functions are numbered in declaration order.  evaluate gives what a function's body does
  // with its parameters, given the summaries so far; reverse lists each function's callers.
  datatype Program = Program(params: seq<set<Param>>, evaluate: (nat, State) -> seq<Update>, reverse: seq<seq<nat>>)

  ghost predicate Agree(s: State, t: State, ps: set<Param>) {
    forall p :: p in ps ==> (p in s <==> p in t) && (p in s ==> s[p] == t[p])
  }

  // The index covers the dependencies: a function's evaluation depends only on the summaries
  // of the functions it is listed as a caller of.
  ghost predicate Covers(g: Program) {
    forall i: nat, s, t ::
      i < |g.params|
        && (forall j: nat :: j < |g.reverse| && i in g.reverse[j] ==> j < |g.params| && Agree(s, t, g.params[j]))
      ==> g.evaluate(i, s) == g.evaluate(i, t)
  }

  ghost predicate OwnParams(g: Program) {
    && (forall i: nat, s, u :: i < |g.params| && u in g.evaluate(i, s) ==> u.0 in g.params[i])
    && (forall i: nat, j: nat, p :: i < j < |g.params| && p in g.params[i] ==> p !in g.params[j])
  }

  ghost predicate Valid(g: Program) {
    && |g.reverse| == |g.params| && OwnParams(g) && Covers(g)
    && (forall j: nat, i :: j < |g.reverse| && i in g.reverse[j] ==> i < |g.params|)
  }

  /****** Recording ******/

  function At(s: State, p: Param): set<Effect> {
    if p in s then s[p] else {}
  }

  function RecordAll(s: State, us: seq<Update>): State
    decreases us
  {
    if us == [] then s else RecordAll(s[us[0].0 := At(s, us[0].0) + us[0].1], us[1..])
  }

  predicate Below(s: State, t: State) {
    forall p :: p in s ==> p in t && s[p] <= t[p]
  }

  predicate Absorbs(s: State, us: seq<Update>) {
    forall u :: u in us ==> u.0 in s && u.1 <= s[u.0]
  }

  lemma {:induction false} RecordedAbsorbs(s: State, us: seq<Update>)
    ensures Below(s, RecordAll(s, us)) && Absorbs(RecordAll(s, us), us)
    ensures forall p :: (forall u :: u in us ==> u.0 != p) ==> Agree(s, RecordAll(s, us), {p})
    decreases us
  {
    if us != [] {
      var s1 := s[us[0].0 := At(s, us[0].0) + us[0].1];
      RecordedAbsorbs(s1, us[1..]);
      assert us == [us[0]] + us[1..];
      forall p | forall u :: u in us ==> u.0 != p ensures Agree(s, RecordAll(s, us), {p}) {
        assert us[0] in us && Agree(s1, RecordAll(s1, us[1..]), {p});
      }
    }
  }

  lemma {:induction false} RecordedLeast(s: State, us: seq<Update>, t: State)
    requires Below(s, t) && Absorbs(t, us)
    ensures Below(RecordAll(s, us), t)
    decreases us
  {
    if us != [] {
      assert us[0] in us;
      RecordedLeast(s[us[0].0 := At(s, us[0].0) + us[0].1], us[1..], t);
    }
  }

  lemma BelowAntisym(s: State, t: State)
    requires Below(s, t) && Below(t, s)
    ensures s == t
  {
    assert s.Keys == t.Keys;
    assert forall p :: p in s ==> s[p] == t[p];
  }

  lemma {:induction false} AbsorbedStays(s: State, us: seq<Update>)
    requires Absorbs(s, us)
    ensures RecordAll(s, us) == s
  {
    RecordedAbsorbs(s, us);
    RecordedLeast(s, us, s);
    BelowAntisym(s, RecordAll(s, us));
  }

  // Another evaluation of the function would add nothing.
  ghost predicate StableAt(g: Program, s: State, i: nat) {
    Absorbs(s, g.evaluate(i, s))
  }

  ghost predicate Stable(g: Program, s: State) {
    forall i: nat :: i < |g.params| ==> StableAt(g, s, i)
  }

  // recordParamEffects: merging by union, and did anything change?
  class Table {
    var effects: State

    constructor ()
      ensures effects == map[]
    {
      effects := map[];
    }

    method RecordParamEffects(p: Param, next: set<Effect>) returns (changed: bool)
      modifies this
      ensures effects == old(effects)[p := At(old(effects), p) + next]
      ensures changed <==> effects != old(effects)
    {
      var existed := p in effects;
      var prev := At(effects, p);
      var merged := prev + next;
      effects := effects[p := merged];
      changed := !existed || merged != prev;
      if changed {
        assert p in effects;
      } else {
        assert effects == old(effects);
      }
    }

    // One evaluation of a function: every update of its parameters is recorded.
    method Evaluate(us: seq<Update>) returns (changed: bool)
      modifies this
      ensures effects == RecordAll(old(effects), us)
      ensures changed <==> effects != old(effects)
    {
      changed := false;
      for k := 0 to |us|
        invariant RecordAll(effects, us[k..]) == RecordAll(old(effects), us)
        invariant Below(old(effects), effects) && (changed <==> effects != old(effects))
      {
        assert us[k..][1..] == us[k + 1..];
        ghost var before := effects;
        var c := RecordParamEffects(us[k].0, us[k].1);
        Rises(old(effects), before, effects, us[k].0, us[k].1);
        if c { changed := true; }
      }
      assert us[|us|..] == [];
    }
  }

  lemma Rises(s: State, t: State, r: State, p: Param, next: set<Effect>)
    requires Below(s, t) && r == t[p := At(t, p) + next]
    ensures Below(s, r) && (r == s ==> t == s)
  {
    if r == s { BelowAntisym(s, t) by { assert Below(t, r); } }
  }

  /****** Facts that can still be recorded ******/

  ghost function Facts(s: State): set<(Param, Option<Effect>)> {
    (set p | p in s :: (p, None)) + (set p, e | p in s && e in s[p] :: (p, Some(e)))
  }

  ghost function Universe(g: Program, n: nat): set<(Param, Option<Effect>)>
    requires n <= |g.params|
  {
    if n == 0 then {}
    else
      Universe(g, n - 1) +
      set p, o | p in g.params[n - 1] && o in {None, Some(May), Some(Must), Some(Returns), Some(Opaque)} :: (p, o)
  }

  lemma {:induction false} InUniverse(g: Program, n: nat, i: nat, p: Param, o: Option<Effect>)
    requires i < n <= |g.params| && p in g.params[i]
    ensures (p, o) in Universe(g, n)
  {
    if i < n - 1 { InUniverse(g, n - 1, i, p, o); }
    else {
      assert o in {None, Some(May), Some(Must), Some(Returns), Some(Opaque)}
      by { if o.Some? { match o.value case May => case Must => case Returns => case Opaque => } }
    }
  }

  ghost predicate KnownParams(g: Program, s: State) {
    forall p :: p in s ==> exists i: nat :: i < |g.params| && p in g.params[i]
  }

  lemma FactsInUniverse(g: Program, s: State)
    requires KnownParams(g, s)
    ensures Facts(s) <= Universe(g, |g.params|)
  {
    forall f | f in Facts(s) ensures f in Universe(g, |g.params|) {
      var i: nat :| i < |g.params| && f.0 in g.params[i];
      InUniverse(g, |g.params|, i, f.0, f.1);
    }
  }

  lemma FactsGrow(s: State, t: State)
    requires Below(s, t) && s != t
    ensures Facts(s) < Facts(t)
  {
    forall f | f in Facts(s) ensures f in Facts(t) {}
    if Facts(t) <= Facts(s) {
      forall p | p in t ensures p in s && t[p] <= s[p] {
        assert (p, None) in Facts(t);
        forall e | e in t[p] ensures e in s[p] { assert (p, Some(e)) in Facts(t); }
      }
      BelowAntisym(s, t);
    }
  }

  /****** The worklist ******/

  // How often the functions that list i as a caller have grown.
  ghost function CalleeGrowths(g: Program, growths: seq<nat>, i: nat, n: nat): nat
    requires n <= |growths| && n <= |g.reverse|
  {
    if n == 0 then 0 else CalleeGrowths(g, growths, i, n - 1) + if i in g.reverse[n - 1] then growths[n - 1] else 0
  }

  lemma {:induction false} OneGrowth(g: Program, growths: seq<nat>, j: nat, i: nat, n: nat)
    requires n <= |growths| && n <= |g.reverse| && j < |growths|
    ensures CalleeGrowths(g, growths[j := growths[j] + 1], i, n) ==
      CalleeGrowths(g, growths, i, n) + if j < n && i in g.reverse[j] then 1 else 0
  {
    if n > 0 { OneGrowth(g, growths, j, i, n - 1); }
  }

  // After j has been evaluated and grown, only its callers and j itself can be unsettled, and
  // j only if it is its own caller.
  lemma GrownStable(g: Program, s: State, j: nat, k: nat)
    requires Valid(g) && j < |g.params| && k < |g.params| && k !in g.reverse[j]
    requires k == j || StableAt(g, s, k)
    ensures StableAt(g, RecordAll(s, g.evaluate(j, s)), k)
  {
    var us := g.evaluate(j, s);
    var t := RecordAll(s, us);
    RecordedAbsorbs(s, us);
    forall x: nat | x < |g.reverse| && k in g.reverse[x] ensures x < |g.params| && Agree(s, t, g.params[x]) {
      forall p | p in g.params[x] ensures Agree(s, t, {p}) { OtherParams(g, s, j, x, p); }
      AgreeEach(s, t, g.params[x]);
    }
    assert g.evaluate(k, s) == g.evaluate(k, t);
  }

  lemma AgreeEach(s: State, t: State, ps: set<Param>)
    requires forall p :: p in ps ==> Agree(s, t, {p})
    ensures Agree(s, t, ps)
  {
    forall p | p in ps ensures (p in s <==> p in t) && (p in s ==> s[p] == t[p]) { assert Agree(s, t, {p}); }
  }

  lemma OtherParams(g: Program, s: State, j: nat, x: nat, p: Param)
    requires Valid(g) && j < |g.params| && x < |g.params| && x != j && p in g.params[x]
    ensures Agree(s, RecordAll(s, g.evaluate(j, s)), {p})
  {
    RecordedAbsorbs(s, g.evaluate(j, s));
    forall u | u in g.evaluate(j, s) ensures u.0 != p { assert u.0 in g.params[j]; }
  }

  lemma UnchangedStable(g: Program, s: State, j: nat)
    requires RecordAll(s, g.evaluate(j, s)) == s
    ensures StableAt(g, s, j)
  {
    RecordedAbsorbs(s, g.evaluate(j, s));
  }

  lemma StaysKnown(g: Program, s: State, j: nat)
    requires Valid(g) && KnownParams(g, s) && j < |g.params|
    ensures KnownParams(g, RecordAll(s, g.evaluate(j, s)))
  {
    var us := g.evaluate(j, s);
    RecordedAbsorbs(s, us);
    forall p | p in RecordAll(s, us) ensures exists i: nat :: i < |g.params| && p in g.params[i] {
      if u :| u in us && u.0 == p {} else { assert Agree(s, RecordAll(s, us), {p}); }
    }
  }

  // A state above every visit: it stays above when evaluations are monotone.
  ghost predicate MonotoneEvaluation(g: Program) {
    forall i: nat, s, t :: i < |g.params| && Below(s, t) ==> Absorbs(RecordAll(t, g.evaluate(i, t)), g.evaluate(i, s))
  }

  // Evaluations that do not look at summaries are monotone.
  lemma ConstantIsMonotone(g: Program)
    requires forall i: nat, s, t :: i < |g.params| ==> g.evaluate(i, s) == g.evaluate(i, t)
    ensures MonotoneEvaluation(g)
  {
    forall i: nat, s: State, t: State | i < |g.params| && Below(s, t)
      ensures Absorbs(RecordAll(t, g.evaluate(i, t)), g.evaluate(i, s))
    {
      RecordedAbsorbs(t, g.evaluate(i, t));
    }
  }

  lemma StaysBelow(g: Program, s: State, t: State, j: nat)
    requires MonotoneEvaluation(g) && Stable(g, t) && Below(s, t) && j < |g.params|
    ensures Below(RecordAll(s, g.evaluate(j, s)), t)
  {
    assert StableAt(g, t, j);
    AbsorbedStays(t, g.evaluate(j, t));
    RecordedLeast(s, g.evaluate(j, s), t);
  }

  // Evaluating the functions in this order.
  ghost function Visits(g: Program, order: seq<nat>): State
    decreases |order|
  {
    if order == [] then map[] else
      var s := Visits(g, order[..|order| - 1]);
      RecordAll(s, g.evaluate(order[|order| - 1], s))
  }

  // How many of these evaluations were of j and added something.
  ghost function Grew(g: Program, order: seq<nat>, j: nat): nat
    decreases |order|
  {
    if order == [] then 0 else
      var before := order[..|order| - 1];
      Grew(g, before, j) + if order[|order| - 1] == j && Visits(g, order) != Visits(g, before) then 1 else 0
  }

  ghost function Growths(g: Program, order: seq<nat>): seq<nat> {
    seq(|g.params|, j requires 0 <= j < |g.params| => Grew(g, order, j))
  }

  function Evaluated(order: seq<nat>, i: nat): nat {
    multiset(order)[i]
  }

  ghost predicate Pending(queue: seq<nat>, head: nat, i: nat) {
    exists h :: head <= h < |queue| && queue[h] == i
  }

  ghost predicate Counted(g: Program, queue: seq<nat>, head: nat)
    requires |g.params| == |g.reverse| && head <= |queue|
  {
    forall i: nat :: i < |g.params| ==>
      Evaluated(queue[..head], i) + (if Pending(queue, head, i) then 1 else 0)
        <= 1 + CalleeGrowths(g, Growths(g, queue[..head]), i, |g.params|)
  }

  predicate Distinct(queue: seq<nat>, head: nat) {
    forall h, k :: head <= h < k < |queue| ==> queue[h] != queue[k]
  }

  ghost predicate BelowStable(g: Program, s: State) {
    MonotoneEvaluation(g) ==> forall t :: Stable(g, t) ==> Below(s, t)
  }

  // What holds before each evaluation: queue[..head] has been evaluated, the rest is to do.
  ghost predicate Working(g: Program, s: State, queue: seq<nat>, head: nat) {
    && |g.params| == |g.reverse| && |g.params| <= |queue| && head <= |queue|
    && (forall i: nat :: i < |g.params| ==> queue[i] == i)
    && (forall h: nat :: h < |queue| ==> queue[h] < |g.params|)
    && Distinct(queue, head)
    && s == Visits(g, queue[..head]) && KnownParams(g, s) && BelowStable(g, s)
    && (forall i: nat :: i < |g.params| && !Pending(queue, head, i) ==> StableAt(g, s, i))
    && Counted(g, queue, head)
  }

  // No evaluation can grow the state, and it is the least such if evaluations are monotone.
  ghost predicate IsOutcome(g: Program, s: State) {
    Stable(g, s) && (MonotoneEvaluation(g) ==> forall t :: Stable(g, t) ==> Below(s, t))
  }

  // computeParameterEffectFixedPoint: it ends, with summaries no further evaluation can grow;
  // monotone evaluations make them the least such summaries; each function is evaluated at
  // most once more often than its callees have grown.
  method FixedPoint(g: Program) returns (result: State, evaluations: nat, ghost order: seq<nat>)
    requires Valid(g)
    ensures IsOutcome(g, result)
    ensures result == Visits(g, order) && evaluations == |order| && |g.params| <= |order|
    ensures forall i: nat :: i < |g.params| ==> order[i] == i
    ensures forall i: nat :: i < |g.params| ==>
      Evaluated(order, i) <= 1 + CalleeGrowths(g, Growths(g, order), i, |g.params|)
  {
    hide Valid, Facts, Universe, RecordAll, Working, Pending, CalleeGrowths, Visits, Stable, MonotoneEvaluation, Below;
    var n := |g.params|;
    var table := new Table();
    var queue: seq<nat> := [];
    for i := 0 to n
      invariant |queue| == i && forall k: nat :: k < i ==> queue[k] == k
    {
      queue := queue + [i];
    }
    var queued := new bool[n](_ => true);
    var head := 0;
    evaluations := 0;
    Starts(g, queue);
    while head < |queue|
      invariant fresh(table) && evaluations == head
      invariant Working(g, table.effects, queue, head)
      invariant forall i: nat :: i < n ==> (queued[i] <==> Pending(queue, head, i))
      decreases Universe(g, n) - Facts(table.effects), |queue| - head
    {
      InRange(g, table.effects, queue, head);
      var i := queue[head];
      ghost var s, queue0 := table.effects, queue;
      queued[i] := false;
      PopPending(queue, head);
      head := head + 1;
      evaluations := evaluations + 1;
      var changed := table.Evaluate(g.evaluate(i, table.effects));
      if !changed {
        Unchanged(g, s, queue, head - 1);
        continue;
      }
      MoreRoom(g, s, i) by { KnownHere(g, s, queue, head - 1); }
      queue := PushCallers(g, i, queued, queue, head);
      Grown(g, s, queue0, queue, head - 1);
    }
    result := table.effects;
    order := queue;
    Finished(g, result, queue, head);
  }

  lemma InRange(g: Program, s: State, queue: seq<nat>, head: nat)
    requires Working(g, s, queue, head) && head < |queue|
    ensures queue[head] < |g.params| == |g.reverse| <= |queue| && Distinct(queue, head) && Distinct(queue, head + 1)
    ensures forall h: nat :: h < |queue| ==> queue[h] < |g.params|
  {}

  lemma KnownHere(g: Program, s: State, queue: seq<nat>, head: nat)
    requires Working(g, s, queue, head)
    ensures KnownParams(g, s)
  {}

  lemma NextVisit(g: Program, s: State, queue: seq<nat>, head: nat)
    requires head < |queue| && s == Visits(g, queue[..head])
    ensures Visits(g, queue[..head + 1]) == RecordAll(s, g.evaluate(queue[head], s))
  {
    hide RecordAll;
    var next := queue[..head + 1];
    assert next[..|next| - 1] == queue[..head];
  }

  lemma StillBelow(g: Program, s: State, i: nat)
    requires BelowStable(g, s) && i < |g.params|
    ensures BelowStable(g, RecordAll(s, g.evaluate(i, s)))
  {
    hide RecordAll, Stable, MonotoneEvaluation;
    forall t | MonotoneEvaluation(g) && Stable(g, t) ensures Below(RecordAll(s, g.evaluate(i, s)), t) {
      StaysBelow(g, s, t, i);
    }
  }

  // An evaluation that adds nothing.
  lemma Unchanged(g: Program, s: State, queue: seq<nat>, head: nat)
    requires Working(g, s, queue, head) && head < |queue|
    requires RecordAll(s, g.evaluate(queue[head], s)) == s
    ensures Working(g, s, queue, head + 1)
  {
    hide RecordAll, Pending, StableAt, CalleeGrowths, Visits, Counted;
    NextVisit(g, s, queue, head);
    PopPending(queue, head);
    UnchangedStable(g, s, queue[head]);
    StillCounted(g, s, queue, queue, head);
  }

  ghost predicate Requeued(g: Program, queue: seq<nat>, queue': seq<nat>, head: nat, i: nat)
    requires i < |g.reverse|
  {
    forall k: nat :: Pending(queue', head, k) <==> Pending(queue, head, k) || k in g.reverse[i]
  }

  // An evaluation that adds something, after which the callers are queued.
  lemma Grown(g: Program, s: State, queue: seq<nat>, queue': seq<nat>, head: nat)
    requires Valid(g) && Working(g, s, queue, head) && head < |queue| && queue <= queue'
    requires forall h: nat :: h < |queue'| ==> queue'[h] < |g.params|
    requires Distinct(queue', head + 1)
    requires Requeued(g, queue, queue', head + 1, queue[head])
    requires RecordAll(s, g.evaluate(queue[head], s)) != s
    ensures var i := queue[head];
      Working(g, RecordAll(s, g.evaluate(i, s)), queue', head + 1)
  {
    hide RecordAll, Pending, StableAt, CalleeGrowths, Visits, Valid, KnownParams, BelowStable, Requeued, Counted;
    var i := queue[head];
    NextVisit(g, s, queue, head);
    assert queue'[..head + 1] == queue[..head + 1];
    PopPending(queue, head);
    StaysKnown(g, s, i);
    StillBelow(g, s, i);
    forall k: nat | k < |g.params| && !Pending(queue', head + 1, k)
      ensures StableAt(g, RecordAll(s, g.evaluate(i, s)), k) {
      Settled(g, s, queue, queue', head + 1, i, k);
    }
    StillCounted(g, s, queue, queue', head);
  }

  lemma Starts(g: Program, queue: seq<nat>)
    requires Valid(g) && |queue| == |g.params| && forall i: nat :: i < |queue| ==> queue[i] == i
    ensures Working(g, map[], queue, 0)
    ensures forall i: nat :: i < |g.params| ==> Pending(queue, 0, i)
  {
    forall i: nat | i < |g.params| ensures Pending(queue, 0, i) { assert queue[i] == i; }
    assert queue[..0] == [];
  }

  lemma PopPending(queue: seq<nat>, head: nat)
    requires head < |queue| && Distinct(queue, head)
    ensures forall i: nat :: Pending(queue, head, i) <==> i == queue[head] || Pending(queue, head + 1, i)
    ensures !Pending(queue, head + 1, queue[head])
  {
    forall i: nat ensures Pending(queue, head, i) <==> i == queue[head] || Pending(queue, head + 1, i) {
      if Pending(queue, head, i) {
        var h :| head <= h < |queue| && queue[h] == i;
        assert h > head ==> Pending(queue, head + 1, i);
      }
      if Pending(queue, head + 1, i) {
        var h :| head + 1 <= h < |queue| && queue[h] == i;
        assert Pending(queue, head, i);
      }
      if i == queue[head] { assert Pending(queue, head, i); }
    }
  }

  lemma MoreRoom(g: Program, s: State, i: nat)
    requires Valid(g) && KnownParams(g, s) && i < |g.params| && RecordAll(s, g.evaluate(i, s)) != s
    ensures Universe(g, |g.params|) - Facts(RecordAll(s, g.evaluate(i, s))) < Universe(g, |g.params|) - Facts(s)
  {
    hide Universe, Facts, RecordAll;
    var t := RecordAll(s, g.evaluate(i, s));
    RecordedAbsorbs(s, g.evaluate(i, s));
    StaysKnown(g, s, i);
    FactsGrow(s, t);
    FactsInUniverse(g, s);
    FactsInUniverse(g, t);
  }

  // Queues the callers that are not queued already.
  method PushCallers(g: Program, i: nat, queued: array<bool>, queue: seq<nat>, head: nat) returns (queue': seq<nat>)
    requires Valid(g) && i < |g.params| == queued.Length && head <= |queue|
    requires forall h: nat :: h < |queue| ==> queue[h] < queued.Length
    requires forall k: nat :: k < queued.Length ==> (queued[k] <==> Pending(queue, head, k))
    requires Distinct(queue, head)
    modifies queued
    ensures queue <= queue' && forall h: nat :: h < |queue'| ==> queue'[h] < queued.Length
    ensures Requeued(g, queue, queue', head, i)
    ensures forall k: nat :: k < queued.Length ==> (queued[k] <==> Pending(queue', head, k))
    ensures Distinct(queue', head)
  {
    queue' := queue;
    var callers := g.reverse[i];
    assert forall c :: c in callers ==> c < queued.Length;
    hide Valid;
    for c := 0 to |callers|
      invariant queue <= queue' && forall h: nat :: h < |queue'| ==> queue'[h] < queued.Length
      invariant forall k: nat :: Pending(queue', head, k) <==> Pending(queue, head, k) || k in callers[..c]
      invariant forall k: nat :: k < queued.Length ==> (queued[k] <==> Pending(queue', head, k))
      invariant Distinct(queue', head)
    {
      var caller := callers[c];
      assert caller in callers && callers[..c + 1] == callers[..c] + [caller];
      if queued[caller] { continue; }
      PushPending(queue', head, caller);
      queued[caller] := true;
      queue' := queue' + [caller];
    }
    assert callers[..|callers|] == callers;
  }

  lemma PushPending(queue: seq<nat>, head: nat, c: nat)
    requires head <= |queue|
    ensures forall k: nat :: Pending(queue + [c], head, k) <==> Pending(queue, head, k) || k == c
    ensures !Pending(queue, head, c) ==> forall h :: head <= h < |queue| ==> queue[h] != c
  {
    forall k: nat ensures Pending(queue + [c], head, k) <==> Pending(queue, head, k) || k == c {
      if Pending(queue, head, k) {
        var h :| head <= h < |queue| && queue[h] == k;
        assert (queue + [c])[h] == k;
      }
      assert (queue + [c])[|queue|] == c;
    }
  }

  lemma Settled(g: Program, s: State, queue0: seq<nat>, queue: seq<nat>, head: nat, i: nat, k: nat)
    requires Valid(g) && i < |g.params| && k < |g.params| && !Pending(queue, head, k)
    requires Requeued(g, queue0, queue, head, i)
    requires k == i || Pending(queue0, head, k) || StableAt(g, s, k)
    ensures StableAt(g, RecordAll(s, g.evaluate(i, s)), k)
  {
    hide Pending, StableAt, RecordAll;
    GrownStable(g, s, i, k);
  }

  // One more evaluation.
  lemma NextCounts(g: Program, s: State, queue: seq<nat>, head: nat)
    requires head < |queue| && queue[head] < |g.params| && s == Visits(g, queue[..head])
    ensures var before, order, i := Growths(g, queue[..head]), queue[..head + 1], queue[head];
      && (forall k: nat :: Evaluated(order, k) == Evaluated(queue[..head], k) + if k == i then 1 else 0)
      && Growths(g, order) == if RecordAll(s, g.evaluate(i, s)) == s then before else before[i := before[i] + 1]
  {
    hide RecordAll, Visits;
    NextVisit(g, s, queue, head);
    var order := queue[..head + 1];
    assert order[..|order| - 1] == queue[..head] && order == queue[..head] + [queue[head]];
  }

  lemma StillCounted(g: Program, s: State, queue0: seq<nat>, queue: seq<nat>, head: nat)
    requires |g.params| == |g.reverse| && head < |queue0| && queue0[head] < |g.params| && queue0 <= queue
    requires s == Visits(g, queue0[..head]) && Counted(g, queue0, head)
    requires forall k: nat :: Pending(queue0, head, k) <==> k == queue0[head] || Pending(queue0, head + 1, k)
    requires !Pending(queue0, head + 1, queue0[head])
    requires if RecordAll(s, g.evaluate(queue0[head], s)) == s then queue == queue0
      else Requeued(g, queue0, queue, head + 1, queue0[head])
    ensures Counted(g, queue, head + 1)
  {
    hide Pending, RecordAll, Visits, Growths, Evaluated;
    NextCounts(g, s, queue0, head);
    var i := queue0[head];
    var order, growths := queue[..head + 1], Growths(g, queue[..head]);
    assert order == queue0[..head + 1] && queue[..head] == queue0[..head];
    GrowthsLength(g, order);
    GrowthsLength(g, queue[..head]);
    forall k: nat | k < |g.params|
      ensures Evaluated(order, k) + (if Pending(queue, head + 1, k) then 1 else 0) <= 1 +
        CalleeGrowths(g, Growths(g, order), k, |g.params|)
    {
      if RecordAll(s, g.evaluate(i, s)) != s { OneGrowth(g, growths, i, k, |g.params|); }
    }
  }

  lemma GrowthsLength(g: Program, order: seq<nat>)
    ensures |Growths(g, order)| == |g.params|
  {}

  lemma Finished(g: Program, s: State, queue: seq<nat>, head: nat)
    requires head >= |queue| && Working(g, s, queue, head)
    ensures IsOutcome(g, s)
    ensures s == Visits(g, queue) && head == |queue| && |g.params| <= |queue| && forall i: nat :: i < |g.params| ==>
      queue[i] == i
    ensures |g.params| == |g.reverse|
    ensures forall i: nat :: i < |g.params| ==>
      Evaluated(queue, i) <= 1 + CalleeGrowths(g, Growths(g, queue), i, |g.params|)
  {
    hide StableAt, CalleeGrowths, Visits, MonotoneEvaluation;
    assert queue[..head] == queue;
    assert forall i: nat :: !Pending(queue, head, i);
  }

  /****** The order of declaration ******/

  // h is g with function i renumbered to order[i]: the same bodies declared in another order.
  ghost predicate Renumbered(g: Program, h: Program, order: seq<nat>) {
    && |order| == |g.params| == |h.params|
    && (forall i: nat :: i < |order| ==> order[i] < |order|)
    && (forall i: nat, j: nat :: i < j < |order| ==> order[i] != order[j])
    && (forall k: nat :: k < |order| ==> k in order)
    && (forall i: nat :: i < |order| ==> h.params[order[i]] == g.params[i])
    && (forall i: nat, s :: i < |order| ==> h.evaluate(order[i], s) == g.evaluate(i, s))
    && |g.reverse| == |h.reverse| == |order|
    && (forall i: nat, j: nat :: i < |order| && j < |order| ==>
      (order[i] in h.reverse[order[j]] <==> i in g.reverse[j]))
  }

  // Renumbering changes neither which states are stable nor whether evaluations are monotone.
  lemma RenumberedStable(g: Program, h: Program, order: seq<nat>, s: State)
    requires Renumbered(g, h, order)
    ensures Stable(g, s) <==> Stable(h, s)
  {
    if Stable(g, s) {
      forall k: nat | k < |h.params| ensures StableAt(h, s, k) {
        assert k in order;
        var i :| 0 <= i < |order| && order[i] == k;
        assert StableAt(g, s, i);
      }
    }
    if Stable(h, s) {
      forall i: nat | i < |g.params| ensures StableAt(g, s, i) { assert StableAt(h, s, order[i]); }
    }
  }

  lemma RenumberedMonotone(g: Program, h: Program, order: seq<nat>)
    requires Renumbered(g, h, order) && MonotoneEvaluation(g)
    ensures MonotoneEvaluation(h)
  {
    forall k: nat, s, t | k < |h.params| && Below(s, t)
      ensures Absorbs(RecordAll(t, h.evaluate(k, t)), h.evaluate(k, s)) {
      assert k in order;
      var i :| 0 <= i < |order| && order[i] == k;
      assert h.evaluate(k, t) == g.evaluate(i, t) && h.evaluate(k, s) == g.evaluate(i, s);
    }
  }

  // With monotone evaluations the outcome does not depend on the order of declaration.
  lemma OrderDoesNotShow(g: Program, h: Program, order: seq<nat>, a: State, b: State)
    requires Renumbered(g, h, order) && MonotoneEvaluation(g) && IsOutcome(g, a) && IsOutcome(h, b)
    ensures a == b
  {
    RenumberedMonotone(g, h, order);
    RenumberedStable(g, h, order, a);
    RenumberedStable(g, h, order, b);
    BelowAntisym(a, b);
  }

  // Running the worklist on both declarations gives the same summaries.
  method DeclaredEitherWay(g: Program, h: Program, ghost order: seq<nat>) returns (a: State, b: State)
    requires Valid(g) && Valid(h) && Renumbered(g, h, order)
    ensures IsOutcome(g, a) && IsOutcome(h, b) && (MonotoneEvaluation(g) ==> a == b)
  {
    var n, m: nat;
    ghost var p, q: seq<nat>;
    a, n, p := FixedPoint(g);
    b, m, q := FixedPoint(h);
    if MonotoneEvaluation(g) { OrderDoesNotShow(g, h, order, a, b); }
  }
}
