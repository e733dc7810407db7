/**
 Stop before wait: is a group only ever told to stop after it has been waited for?

 On a run, plain calls execute where they stand; deferred calls execute when the function
 returns, in the reverse of the order in which they were registered.
 */
module StopOrdering {
  import opened Graph
  import opened Building
  import opened Obligation
  import Verdict

  // A call with a place and a time: plain, or registered by a defer statement.
  datatype Signal = Signal(site: CallSite, deferred: bool)

  predicate Earlier(j: nat, x: CallSite, k: nat, y: CallSite) {
    j < k || (j == k && x.index < y.index)
  }

  ghost predicate Occurs(g: CFG, es: seq<Edge>, j: nat, s: Signal) {
    j <= |es| && BlockAt(g.entry, es, j) == s.site.block
  }

  // Signal x, met at step j, executes before y, met at step k.
  predicate RunsBefore(x: Signal, j: nat, y: Signal, k: nat) {
    if x.deferred && y.deferred then Earlier(k, y.site, j, x.site)
    else if !x.deferred && !y.deferred then Earlier(j, x.site, k, y.site)
    else y.deferred
  }

  // Of two different calls on a run exactly one executes first.
  lemma OneRunsFirst(x: Signal, j: nat, y: Signal, k: nat)
    requires x.deferred != y.deferred || j != k || x.site.index != y.site.index
    ensures RunsBefore(x, j, y, k) <==> !RunsBefore(y, k, x, j)
  {}

  /****** What lies before a site on every way to it ******/

  ghost predicate PrecededOn(g: CFG, es: seq<Edge>, sites: seq<CallSite>, x: CallSite) {
    exists j: nat, w :: j <= |es| && w in sites && BlockAt(g.entry, es, j) == w.block && Earlier(j, w, |es|, x)
  }

  // Every walk from the entry to x has executed one of the sites before it.
  ghost predicate AlwaysPreceded(g: CFG, sites: seq<CallSite>, x: CallSite) {
    forall es :: IsWalk(g, Any, g.entry, es, x.block) ==> PrecededOn(g, es, sites, x)
  }

  predicate EarlierInBlock(sites: seq<CallSite>, x: CallSite) {
    exists w :: w in sites && w.block == x.block && w.index < x.index
  }

  lemma InBlockPrecedes(g: CFG, sites: seq<CallSite>, x: CallSite)
    requires EarlierInBlock(sites, x)
    ensures AlwaysPreceded(g, sites, x)
  {
    var w :| w in sites && w.block == x.block && w.index < x.index;
    forall es | IsWalk(g, Any, g.entry, es, x.block) ensures PrecededOn(g, es, sites, x) {
      EndsAt(g, g.entry, es, x.block);
      assert Earlier(|es|, w, |es|, x);
    }
  }

  lemma EndsAt(g: CFG, a: BlockId, es: seq<Edge>, b: BlockId)
    requires IsWalk(g, Any, a, es, b)
    ensures BlockAt(a, es, |es|) == b
  {
    var m := WalkSplit(g, Any, a, es, b, |es|);
    assert es[|es|..] == [];
  }

  // Away from its own block, a site is preceded exactly when it is not reached around them.
  lemma AvoidingDecides(g: CFG, sites: seq<CallSite>, x: CallSite)
    requires x.block !in BlocksOf(sites)
    ensures AlwaysPreceded(g, sites, x) <==>
      !(g.entry !in BlocksOf(sites) && Reach(g, Permitted(BlocksOf(sites), _ => false), g.entry, x.block))
  {
    var avoid, ok := BlocksOf(sites), Permitted(BlocksOf(sites), _ => false);
    if g.entry !in avoid && Reach(g, ok, g.entry, x.block) {
      var es :| IsWalk(g, ok, g.entry, es, x.block);
      FilterWalk(g, ok, g.entry, es, x.block);
      forall j: nat, w | j <= |es| && w in sites ensures BlockAt(g.entry, es, j) != w.block {
        if j > 0 { assert ok(es[j - 1]); }
      }
      assert !PrecededOn(g, es, sites, x);
    } else {
      forall es | IsWalk(g, Any, g.entry, es, x.block) ensures PrecededOn(g, es, sites, x) {
        var j := Meets(g, es, avoid, x.block);
        var w :| w in sites && w.block == BlockAt(g.entry, es, j);
        EndsAt(g, g.entry, es, x.block);
        assert Earlier(j, w, |es|, x);
      }
    }
  }

  // A walk that is not permitted meets an avoided block.
  lemma Meets(g: CFG, es: seq<Edge>, avoid: set<BlockId>, b: BlockId) returns (j: nat)
    requires IsWalk(g, Any, g.entry, es, b)
    requires g.entry in avoid || !Reach(g, Permitted(avoid, _ => false), g.entry, b)
    ensures j <= |es| && BlockAt(g.entry, es, j) in avoid
  {
    var ok := Permitted(avoid, _ => false);
    if g.entry in avoid {
      j := 0;
    } else {
      FilterWalk(g, ok, g.entry, es, b);
      var i :| 0 <= i < |es| && !ok(es[i]);
      j := i + 1;
    }
  }

  // stopProvenAfterWait is sound, and it is complete unless the stop's own block holds a
  // wait and none before the stop: then it gives up, whatever comes earlier.
  method StopProvenAfterWait(g: CFG, waits: seq<CallSite>, waitBlocks: set<BlockId>, reachAvoiding: set<BlockId>,
      stop: CallSite) returns (proven: bool)
    requires waitBlocks == BlocksOf(waits)
    requires forall b :: b in reachAvoiding <==>
      g.entry !in waitBlocks && Reach(g, Permitted(waitBlocks, _ => false), g.entry, b)
    ensures proven <==> AlwaysPreceded(g, waits, stop) && (stop.block in waitBlocks ==> EarlierInBlock(waits, stop))
  {
    hide Reach, AlwaysPreceded;
    if stop.block in waitBlocks {
      for i := 0 to |waits|
        invariant forall k :: 0 <= k < i ==> !(waits[k].block == stop.block && waits[k].index < stop.index)
      {
        if waits[i].block == stop.block && waits[i].index < stop.index {
          assert waits[i] in waits;
          InBlockPrecedes(g, waits, stop);
          return true;
        }
      }
      return false;
    }
    AvoidingDecides(g, waits, stop);
    return stop.block !in reachAvoiding;
  }

  /****** Registration order ******/

  // The part of a walk up to its first arrival at b.
  lemma {:induction false} FirstArrival(g: CFG, a: BlockId, es: seq<Edge>, b: BlockId) returns (fs: seq<Edge>)
    requires IsWalk(g, Any, a, es, b)
    ensures IsWalk(g, Any, a, fs, b) && forall j: nat :: j < |fs| ==> BlockAt(a, fs, j) != b
    decreases es
  {
    if a == b {
      fs := [];
      WalkStaysInRange(g, Any, a, es, b);
    } else {
      var rest := FirstArrival(g, es[0].to, es[1..], b);
      fs := [es[0]] + rest;
      assert fs[1..] == rest;
      forall j: nat | j < |fs| ensures BlockAt(a, fs, j) != b {
        if j > 0 { assert BlockAt(a, fs, j) == BlockAt(es[0].to, rest, j - 1); }
      }
    }
  }

  // registeredBefore: a is registered before b on every path that reaches b.  Within a block
  // the index decides, in dead code as well, where every order holds.
  method RegisteredBefore(g: CFG, a: CallSite, b: CallSite) returns (before: bool)
    requires EdgesInRange(g.blocks) && g.entry < |g.blocks|
    ensures before <==> AlwaysPreceded(g, [a], b) && (a.block == b.block ==> a.index < b.index)
    ensures Reach(g, Any, g.entry, b.block) ==> (before <==> AlwaysPreceded(g, [a], b))
  {
    if a.block == b.block {
      if a.index < b.index {
        assert a in [a];
        InBlockPrecedes(g, [a], b);
        return true;
      }
      if Reach(g, Any, g.entry, b.block) {
        ghost var es :| IsWalk(g, Any, g.entry, es, b.block);
        ghost var fs := FirstArrival(g, g.entry, es, b.block);
        assert !PrecededOn(g, fs, [a], b);
      }
      return false;
    }
    var seen := ReachableAvoiding(g, g.entry, {a.block});
    assert BlocksOf([a]) == {a.block};
    AvoidingDecides(g, [a], b);
    return b.block !in seen;
  }

  /****** The verdict ******/

  // Why one stop counts as coming after a wait.
  ghost predicate StopAfter(g: CFG, waits: seq<Signal>, s: Signal) {
    if s.deferred then HasPlain(waits) || exists w :: w in waits && w.deferred && AlwaysPreceded(g, [s.site], w.site)
    else HasPlain(waits) && AlwaysPreceded(g, PlainSites(waits), s.site)
  }

  predicate HasPlain(waits: seq<Signal>) {
    exists w :: w in waits && !w.deferred
  }

  function PlainSites(waits: seq<Signal>): (r: seq<CallSite>)
    ensures forall x :: x in r <==> exists w :: w in waits && !w.deferred && w.site == x
  {
    if waits == [] then []
    else
      assert waits == [waits[0]] + waits[1..];
      (if waits[0].deferred then [] else [waits[0].site]) + PlainSites(waits[1..])
  }

  // On every walk to y, one of the plain, or of the deferred, signals in xs is met before y.
  ghost predicate Ahead(g: CFG, xs: seq<Signal>, deferred: bool, y: Signal) {
    forall es :: IsWalk(g, Any, g.entry, es, y.site.block) ==> AheadOn(g, es, xs, deferred, y)
  }

  ghost predicate AheadOn(g: CFG, es: seq<Edge>, xs: seq<Signal>, deferred: bool, y: Signal) {
    exists j: nat, x ::
      x in xs && x.deferred == deferred && Occurs(g, es, j, x) && (j < |es| || x.site.index < y.site.index)
  }

  ghost predicate RegisteredAhead(g: CFG, s: Signal, w: Signal) {
    w.deferred && Ahead(g, [s], true, w) && (w.site.block == s.site.block ==> s.site.index < w.site.index)
  }

  // What the claim about one stop rests on.  A deferred stop runs after every plain wait, and
  // after a deferred one that is registered later.  A plain stop needs a plain wait before it
  // on every walk, and in its own block if any plain wait stands there.
  ghost predicate Claimed(g: CFG, waits: seq<Signal>, s: Signal) {
    if s.deferred then exists w :: w in waits && (w.deferred ==> RegisteredAhead(g, s, w))
    else
      && (exists w :: w in waits && !w.deferred)
      && Ahead(g, waits, false, s)
      && ((exists w :: w in waits && !w.deferred && w.site.block == s.site.block) ==>
        exists w :: w in waits && !w.deferred && w.site.block == s.site.block && w.site.index < s.site.index)
  }

  lemma AheadPrecedes(g: CFG, xs: seq<Signal>, deferred: bool, sites: seq<CallSite>, y: Signal)
    requires forall x :: x in sites <==> exists w :: w in xs && w.deferred == deferred && w.site == x
    ensures Ahead(g, xs, deferred, y) <==> AlwaysPreceded(g, sites, y.site)
  {
    forall es | IsWalk(g, Any, g.entry, es, y.site.block)
      ensures AheadOn(g, es, xs, deferred, y) <==> PrecededOn(g, es, sites, y.site)
    {
      if AheadOn(g, es, xs, deferred, y) {
        var j: nat, x :|
          x in xs && x.deferred == deferred && Occurs(g, es, j, x) && (j < |es| || x.site.index < y.site.index);
        assert x.site in sites && Earlier(j, x.site, |es|, y.site);
      }
      if PrecededOn(g, es, sites, y.site) {
        var j: nat, w :| j <= |es| && w in sites && BlockAt(g.entry, es, j) == w.block
          && Earlier(j, w, |es|, y.site);
        var x :| x in xs && x.deferred == deferred && x.site == w;
        assert Occurs(g, es, j, x);
      }
    }
  }

  lemma OneAhead(g: CFG, s: Signal, w: Signal)
    requires s.deferred
    ensures Ahead(g, [s], true, w) <==> AlwaysPreceded(g, [s.site], w.site)
  {
    hide Ahead, AlwaysPreceded;
    assert s in [s];
    AheadPrecedes(g, [s], true, [s.site], w);
  }

  lemma PlainAhead(g: CFG, waits: seq<Signal>, s: Signal)
    ensures Ahead(g, waits, false, s) <==> AlwaysPreceded(g, PlainSites(waits), s.site)
    ensures (s.site.block in BlocksOf(PlainSites(waits))) <==>
      exists w :: w in waits && !w.deferred && w.site.block == s.site.block
    ensures EarlierInBlock(PlainSites(waits), s.site) <==>
      exists w :: w in waits && !w.deferred && w.site.block == s.site.block && w.site.index < s.site.index
  {
    hide Ahead, AlwaysPreceded, PlainSites;
    AheadPrecedes(g, waits, false, PlainSites(waits), s);
    if w :| w in waits && !w.deferred && w.site.block == s.site.block { assert w.site in PlainSites(waits); }
    if w :| w in waits && !w.deferred && w.site.block == s.site.block && w.site.index < s.site.index {
      assert w.site in PlainSites(waits);
    }
  }

  // A deferred stop is claimed beside a plain wait.
  lemma ClaimedBesidePlain(g: CFG, waits: seq<Signal>, s: Signal, w: Signal)
    requires s.deferred && w in waits && !w.deferred
    ensures Claimed(g, waits, s)
  {}

  // It is, if every walk to a deferred wait has registered it before.
  lemma ClaimedBeforeDeferred(g: CFG, waits: seq<Signal>, s: Signal, w: Signal)
    requires s.deferred && w in waits && w.deferred
    requires if w.site.block == s.site.block then s.site.index < w.site.index
      else forall es :: IsWalk(g, Any, g.entry, es, w.site.block) ==> exists j: nat :: Occurs(g, es, j, s)
    ensures Claimed(g, waits, s)
  {
    forall es | IsWalk(g, Any, g.entry, es, w.site.block) ensures AheadOn(g, es, [s], true, w) {
      EndsAt(g, g.entry, es, w.site.block);
      assert s in [s];
      if w.site.block == s.site.block {
        assert Occurs(g, es, |es|, s);
      } else {
        var j: nat :| Occurs(g, es, j, s);
        assert j < |es|;
      }
    }
    assert RegisteredAhead(g, s, w);
  }

  // A plain stop is claimed behind a plain wait in its own block.
  lemma ClaimedInBlock(g: CFG, waits: seq<Signal>, s: Signal, w: Signal)
    requires !s.deferred && w in waits && !w.deferred
    requires w.site.block == s.site.block && w.site.index < s.site.index
    ensures Claimed(g, waits, s)
  {
    forall es | IsWalk(g, Any, g.entry, es, s.site.block) ensures AheadOn(g, es, waits, false, s) {
      EndsAt(g, g.entry, es, s.site.block);
      assert Occurs(g, es, |es|, w);
    }
  }

  // It is, if no plain wait stands in its block and every walk to it has met one elsewhere.
  lemma ClaimedAcross(g: CFG, waits: seq<Signal>, s: Signal)
    requires !s.deferred && exists w :: w in waits && !w.deferred
    requires forall w :: w in waits && !w.deferred ==> w.site.block != s.site.block
    requires forall es :: IsWalk(g, Any, g.entry, es, s.site.block) ==>
      exists j: nat, w :: w in waits && !w.deferred && Occurs(g, es, j, w)
    ensures Claimed(g, waits, s)
  {
    forall es | IsWalk(g, Any, g.entry, es, s.site.block) ensures AheadOn(g, es, waits, false, s) {
      var j: nat, w :| w in waits && !w.deferred && Occurs(g, es, j, w);
      EndsAt(g, g.entry, es, s.site.block);
      assert j < |es|;
    }
  }

  // What is claimed is that each stop comes after a wait.
  lemma ClaimedAfter(g: CFG, waits: seq<Signal>, s: Signal)
    requires Claimed(g, waits, s)
    ensures StopAfter(g, waits, s)
  {
    hide Ahead, AlwaysPreceded, PlainSites;
    PlainAhead(g, waits, s);
    if s.deferred {
      forall w ensures Ahead(g, [s], true, w) <==> AlwaysPreceded(g, [s.site], w.site) { OneAhead(g, s, w); }
    }
  }

  // computeStopOrdering's decision: every stop signal comes after a wait.
  method StopAfterWait(g: CFG, stops: seq<Signal>, placeable: bool, waits: seq<Signal>) returns (unsafe: bool)
    requires EdgesInRange(g.blocks) && g.entry < |g.blocks|
    ensures unsafe <==> placeable && stops != [] && forall s :: s in stops ==> Claimed(g, waits, s)
    ensures (exists w :: w in waits && !w.deferred) && (forall s :: s in stops ==> s.deferred) ==>
      (unsafe <==> placeable && stops != [])
    ensures unsafe ==> forall s :: s in stops ==> StopAfter(g, waits, s)
  {
    hide Reach, AlwaysPreceded, PlainSites, Ahead, StopAfter;
    if |stops| == 0 || !placeable { return false; }
    if |waits| == 0 {
      Unclaimed(g, waits, stops[0]);
      return false;
    }
    var plain := PlainSites(waits);
    var plainBlocks := BlocksOf(plain);
    var reachAvoiding := ReachableAvoiding(g, g.entry, plainBlocks);
    assert |plain| > 0 <==> HasPlain(waits) by {
      if |plain| > 0 { assert plain[0] in plain; }
      if w :| w in waits && !w.deferred { assert w.site in plain; }
    }
    for i := 0 to |stops|
      invariant forall j :: 0 <= j < i ==> Claimed(g, waits, stops[j])
    {
      var st := stops[i];
      assert st in stops;
      var isAfter := st.deferred && |plain| > 0;
      if !st.deferred && |plain| > 0 { isAfter := StopProvenAfterWait(g, plain, plainBlocks, reachAvoiding, st.site); }
      if !isAfter && st.deferred { isAfter := WaitRegisteredLater(g, waits, st); }
      PlainAhead(g, waits, st);
      if !isAfter { return false; }
    }
    forall s | s in stops ensures StopAfter(g, waits, s) { ClaimedAfter(g, waits, s); }
    return true;
  }

  lemma Unclaimed(g: CFG, waits: seq<Signal>, s: Signal)
    requires waits == []
    ensures !Claimed(g, waits, s)
  {}

  method WaitRegisteredLater(g: CFG, waits: seq<Signal>, st: Signal) returns (found: bool)
    requires EdgesInRange(g.blocks) && g.entry < |g.blocks| && st.deferred
    ensures found <==> exists w :: w in waits && RegisteredAhead(g, st, w)
  {
    hide Reach, AlwaysPreceded, Ahead;
    for i := 0 to |waits|
      invariant forall j :: 0 <= j < i ==> !RegisteredAhead(g, st, waits[j])
    {
      assert waits[i] in waits;
      if waits[i].deferred {
        var before := RegisteredBefore(g, st.site, waits[i].site);
        OneAhead(g, st, waits[i]);
        if before { return true; }
      }
    }
    return false;
  }

  /****** What the verdict says about runs ******/

  lemma UpTo(g: CFG, es: seq<Edge>, i: nat, b: BlockId)
    requires IsWalk(g, Any, g.entry, es, b) && i <= |es|
    ensures IsWalk(g, Any, g.entry, es[..i], BlockAt(g.entry, es, i))
    ensures forall j: nat :: j <= i ==> BlockAt(g.entry, es[..i], j) == BlockAt(g.entry, es, j)
  {
    var m := WalkSplit(g, Any, g.entry, es, b, i);
  }

  lemma PrecededUpTo(g: CFG, es: seq<Edge>, i: nat, sites: seq<CallSite>, x: CallSite) returns (j: nat, w: CallSite)
    requires Run(g, es) && i <= |es| && BlockAt(g.entry, es, i) == x.block && AlwaysPreceded(g, sites, x)
    ensures j <= i && w in sites && BlockAt(g.entry, es, j) == w.block && Earlier(j, w, i, x)
  {
    UpTo(g, es, i, g.exit);
    assert PrecededOn(g, es[..i], sites, x);
    j, w :| j <= |es[..i]| && w in sites && BlockAt(g.entry, es[..i], j) == w.block && Earlier(j, w, |es[..i]|, x);
  }

  // If the claim is made, then on every run that executes a plain wait, each stop that
  // executes has a plain wait executing before it: none comes before the first one.
  lemma NoStopBeforeFirstWait(g: CFG, stops: seq<Signal>, waits: seq<Signal>, es: seq<Edge>, s: Signal, i: nat)
    requires forall t :: t in stops ==> StopAfter(g, waits, t)
    requires Run(g, es) && s in stops && Occurs(g, es, i, s)
    requires exists w, j :: w in waits && !w.deferred && Occurs(g, es, j, w)
    ensures exists w, j :: w in waits && !w.deferred && Occurs(g, es, j, w) && RunsBefore(w, j, s, i)
  {
    hide AlwaysPreceded, PlainSites;
    if !s.deferred {
      var j, x := PrecededUpTo(g, es, i, PlainSites(waits), s.site);
      var w :| w in waits && !w.deferred && w.site == x;
      assert Occurs(g, es, j, w) && RunsBefore(w, j, s, i);
    } else {
      var w, j :| w in waits && !w.deferred && Occurs(g, es, j, w);
      assert RunsBefore(w, j, s, i);
    }
  }

  // If all waits are deferred, each stop is deferred too and has a wait of its own: on every
  // run that registers that wait, and the stop but once, the stop is registered and executes
  // after the wait.
  lemma DeferredWaitRunsFirst(g: CFG, stops: seq<Signal>, waits: seq<Signal>, s: Signal) returns (w: Signal)
    requires (forall t :: t in stops ==> StopAfter(g, waits, t)) && s in stops && !HasPlain(waits)
    ensures s.deferred && w in waits && w.deferred
    ensures forall es, j: nat ::
      Run(g, es) && Occurs(g, es, j, w)
      && (forall a: nat, b: nat :: Occurs(g, es, a, s) && Occurs(g, es, b, s) ==> a == b) ==>
      exists i :: Occurs(g, es, i, s) && RunsBefore(w, j, s, i) && forall k: nat :: Occurs(g, es, k, s) ==> k == i
  {
    hide AlwaysPreceded, Run;
    w :| w in waits && w.deferred && AlwaysPreceded(g, [s.site], w.site);
    forall es, j: nat |
      Run(g, es) && Occurs(g, es, j, w)
      && forall a: nat, b: nat :: Occurs(g, es, a, s) && Occurs(g, es, b, s) ==> a == b
      ensures exists i :: Occurs(g, es, i, s) && RunsBefore(w, j, s, i) && forall k: nat :: Occurs(g, es, k, s) ==>
        k == i
    {
      var i, x := PrecededUpTo(g, es, j, [s.site], w.site);
      assert Occurs(g, es, i, s) && RunsBefore(w, j, s, i);
    }
  }

  /****** Stops that are registered again ******/

  // w's block is left and s's block is entered later on.
  ghost predicate LeadsTo(g: CFG, w: Signal, s: Signal) {
    w.site.block < |g.blocks| && exists e :: e in g.blocks[w.site.block].succs && Reach(g, Any, e.to, s.site.block)
  }

  // Every registration of the wait executes before every registration of the stop.
  ghost predicate WaitBeforeStops(g: CFG, w: Signal, s: Signal) {
    forall es, j: nat, i: nat :: Run(g, es) && Occurs(g, es, j, w) && Occurs(g, es, i, s) ==> RunsBefore(w, j, s, i)
  }

  // No stop executes before the first wait to execute.
  ghost predicate StopsWait(g: CFG, w: Signal, s: Signal) {
    forall es, i: nat :: Run(g, es) && (exists j: nat :: Occurs(g, es, j, w)) && Occurs(g, es, i, s) ==>
      exists j: nat :: Occurs(g, es, j, w) && RunsBefore(w, j, s, i)
  }

  // What lies between steps i and k of a walk.
  lemma Stretch(g: CFG, a: BlockId, es: seq<Edge>, b: BlockId, i: nat, k: nat)
    requires IsWalk(g, Any, a, es, b) && i <= k <= |es|
    ensures IsWalk(g, Any, BlockAt(a, es, i), es[i..k], BlockAt(a, es, k))
  {
    var m := WalkSplit(g, Any, a, es, b, k);
    var n := WalkSplit(g, Any, a, es[..k], m, i);
    assert es[..k][i..] == es[i..k];
  }

  // A walk put together from three.
  lemma Joined(g: CFG, p: seq<Edge>, a: BlockId, q: seq<Edge>, b: BlockId, r: seq<Edge>)
    requires IsWalk(g, Any, g.entry, p, a) && IsWalk(g, Any, a, q, b) && IsWalk(g, Any, b, r, g.exit)
    ensures var es := p + (q + r);
      Run(g, es) && BlockAt(g.entry, es, |p|) == a && BlockAt(g.entry, es, |p| + |q|) == b
    ensures forall k :: |p| + |q| < k <= |p| + |q| + |r| ==> BlockAt(g.entry, p + (q + r), k) == r[k - |p| - |q| - 1].to
  {
    WalkAppend(g, Any, a, q, b, r, g.exit);
    WalkAppend(g, Any, g.entry, p, a, q + r, g.exit);
    EndsAt(g, g.entry, p, a);
    EndsAt(g, a, q, b);
  }

  // In one block, the stop that always precedes the wait stands before it.
  lemma SameBlockOrder(g: CFG, w: Signal, s: Signal)
    requires AlwaysPreceded(g, [s.site], w.site) && Reach(g, Any, g.entry, w.site.block) && w.site.block == s.site.block
    ensures s.site.index < w.site.index
  {
    var es :| IsWalk(g, Any, g.entry, es, w.site.block);
    var fs := FirstArrival(g, g.entry, es, w.site.block);
    assert PrecededOn(g, fs, [s.site], w.site);
  }

  lemma StopAgain(g: CFG, w: Signal, s: Signal, es: seq<Edge>, j: nat, i: nat)
    requires Run(g, es) && Occurs(g, es, j, w) && Occurs(g, es, i, s) && j < i
    ensures LeadsTo(g, w, s) && IsWalk(g, Any, s.site.block, es[i..], g.exit)
  {
    Stretch(g, g.entry, es, g.exit, j, i);
    Stretch(g, g.entry, es, g.exit, i, |es|);
    EndsAt(g, g.entry, es, g.exit);
    assert es[i..|es|] == es[i..];
    var q: seq<Edge> := es[j..i];
    assert IsWalk(g, Any, q[0].to, q[1..], s.site.block);
  }

  // RegisteredBefore is not yet an order of execution.  The deferred wait executes before
  // every registration of the stop exactly if no way leads from the wait to the stop and on
  // to the exit.
  lemma RepeatedRegistration(g: CFG, w: Signal, s: Signal)
    requires w.deferred && s.deferred && AlwaysPreceded(g, [s.site], w.site) && Reach(g, Any, g.entry, w.site.block)
    ensures WaitBeforeStops(g, w, s) <==> !(LeadsTo(g, w, s) && Reach(g, Any, s.site.block, g.exit))
  {
    hide AlwaysPreceded;
    if LeadsTo(g, w, s) && Reach(g, Any, s.site.block, g.exit) {
      var p :| IsWalk(g, Any, g.entry, p, w.site.block);
      var e :| e in g.blocks[w.site.block].succs && Reach(g, Any, e.to, s.site.block);
      var q :| IsWalk(g, Any, e.to, q, s.site.block);
      var r :| IsWalk(g, Any, s.site.block, r, g.exit);
      assert ([e] + q)[1..] == q;
      Joined(g, p, w.site.block, [e] + q, s.site.block, r);
      var es, j, i := p + (([e] + q) + r), |p|, |p| + |[e] + q|;
      assert Occurs(g, es, j, w) && Occurs(g, es, i, s) && !RunsBefore(w, j, s, i);
    } else {
      forall es, j: nat, i: nat | Run(g, es) && Occurs(g, es, j, w) && Occurs(g, es, i, s)
        ensures RunsBefore(w, j, s, i) {
        if j < i {
          StopAgain(g, w, s, es, j, i);
        } else if i == j {
          SameBlockOrder(g, w, s);
        }
      }
    }
  }

  // From the wait a way leads to the stop, and from there to the exit around the wait.
  ghost predicate LateStop(g: CFG, w: Signal, s: Signal) {
    && w.site.block != s.site.block && LeadsTo(g, w, s)
    && Reach(g, Permitted({w.site.block}, _ => false), s.site.block, g.exit)
  }

  // No stop executes before the first wait exactly if, once the wait has been registered, no
  // way leads to the stop and from there to the exit around the wait.
  lemma LastRegistration(g: CFG, w: Signal, s: Signal)
    requires w.deferred && s.deferred && AlwaysPreceded(g, [s.site], w.site) && Reach(g, Any, g.entry, w.site.block)
    ensures StopsWait(g, w, s) <==> !LateStop(g, w, s)
  {
    hide AlwaysPreceded;
    var a, b := w.site.block, s.site.block;
    if LateStop(g, w, s) {
      var p :| IsWalk(g, Any, g.entry, p, a);
      var e :| e in g.blocks[a].succs && Reach(g, Any, e.to, b);
      var q :| IsWalk(g, Any, e.to, q, b);
      var r: seq<Edge> :| IsWalk(g, Permitted({a}, _ => false), b, r, g.exit);
      FilterWalk(g, Permitted({a}, _ => false), b, r, g.exit);
      assert ([e] + q)[1..] == q;
      Joined(g, p, a, [e] + q, b, r);
      var es, i := p + (([e] + q) + r), |p| + |[e] + q|;
      assert Occurs(g, es, |p|, w) && Occurs(g, es, i, s);
      forall k | 0 <= k < |r| ensures r[k].to != a { assert Permitted({a}, _ => false)(r[k]); }
      assert forall j: nat :: Occurs(g, es, j, w) ==> !RunsBefore(w, j, s, i);
    } else {
      forall es, i: nat | Run(g, es) && (exists j: nat :: Occurs(g, es, j, w)) && Occurs(g, es, i, s)
        ensures exists j: nat :: Occurs(g, es, j, w) && RunsBefore(w, j, s, i)
      {
        var j: nat :| Occurs(g, es, j, w);
        if a == b {
          SameBlockOrder(g, w, s);
          assert Occurs(g, es, i, w) && RunsBefore(w, i, s, i);
        } else if j < i {
          var k := RegisteredAgain(g, w, s, es, j, i);
        }
      }
    }
  }

  // The stop at step i comes after the wait at step j: the wait follows once more.
  lemma RegisteredAgain(g: CFG, w: Signal, s: Signal, es: seq<Edge>, j: nat, i: nat) returns (k: nat)
    requires w.deferred && s.deferred && Run(g, es) && Occurs(g, es, j, w) && Occurs(g, es, i, s) && j < i
    requires !(LeadsTo(g, w, s) && Reach(g, Permitted({w.site.block}, _ => false), s.site.block, g.exit))
    ensures Occurs(g, es, k, w) && RunsBefore(w, k, s, i)
  {
    var ok := Permitted({w.site.block}, _ => false);
    StopAgain(g, w, s, es, j, i);
    var r := es[i..];
    FilterWalk(g, ok, s.site.block, r, g.exit);
    var n :| 0 <= n < |r| && !ok(r[n]);
    k := i + n + 1;
    assert es[k - 1] == r[n];
  }

  // for { defer stop(); if c { return }; defer wg.Wait() }, empty blocks left out: 2 registers
  // the stop and may return, 3 registers the wait and goes round.
  const LOOP := CFG(0, 1, [
    BasicBlock(0, [], [Edge(0, 2, Normal)], []),
    BasicBlock(1, [], [], [2]),
    BasicBlock(2, [20], [Edge(2, 1, Return), Edge(2, 3, IfFalse)], [0, 3]),
    BasicBlock(3, [30], [Edge(3, 2, LoopBack)], [2])])

  const LOOP_STOP := Signal(CallSite(2, 0, false), true)
  const LOOP_WAIT := Signal(CallSite(3, 0, false), true)
  const ONE_ROUND := [Edge(0, 2, Normal), Edge(2, 3, IfFalse), Edge(3, 2, LoopBack), Edge(2, 1, Return)]

  // The claim is made, and on a run that goes round once the stop executes first of all.
  lemma LoopStopsFirst()
    ensures StopAfter(LOOP, [LOOP_WAIT], LOOP_STOP)
    ensures Run(LOOP, ONE_ROUND) && Occurs(LOOP, ONE_ROUND, 2, LOOP_WAIT) && Occurs(LOOP, ONE_ROUND, 3, LOOP_STOP)
    ensures forall j: nat :: Occurs(LOOP, ONE_ROUND, j, LOOP_WAIT) ==> !RunsBefore(LOOP_WAIT, j, LOOP_STOP, 3)
  {
    forall es | IsWalk(LOOP, Any, 0, es, 3) ensures PrecededOn(LOOP, es, [LOOP_STOP.site], LOOP_WAIT.site) {
      EndsAt(LOOP, 0, es, 3);
      assert es[0] == LOOP.blocks[0].succs[0];
      assert BlockAt(0, es, 1) == 2 && Earlier(1, LOOP_STOP.site, |es|, LOOP_WAIT.site);
      assert LOOP_STOP.site in [LOOP_STOP.site];
    }
    assert AlwaysPreceded(LOOP, [LOOP_STOP.site], LOOP_WAIT.site);
    assert LOOP_WAIT in [LOOP_WAIT];
    var es := ONE_ROUND;
    assert es[0] in LOOP.blocks[0].succs && es[1] in LOOP.blocks[2].succs && es[2] in LOOP.blocks[3].succs
      && es[3] in LOOP.blocks[2].succs;
    assert es[3..] == [es[3]] && es[2..] == [es[2]] + es[3..] && es[1..] == [es[1]] + es[2..];
    assert IsWalk(LOOP, Any, 1, es[3..][1..], 1);
    assert IsWalk(LOOP, Any, 2, es[3..], 1);
    assert es[2..][1..] == es[3..] && IsWalk(LOOP, Any, 3, es[2..], 1);
    assert es[1..][1..] == es[2..] && IsWalk(LOOP, Any, 2, es[1..], 1);
  }

  /****** Where the proof gives up ******/

  // wait; stop; wait in two blocks: 0 runs a wait, 2 runs the stop and then another wait.
  const GIVES_UP := CFG(0, 1, [
    BasicBlock(0, [10], [Edge(0, 2, Normal)], []),
    BasicBlock(1, [], [], [2]),
    BasicBlock(2, [11, 12], [Edge(2, 1, Return)], [0])])

  const FIRST_WAIT := CallSite(0, 0, false)
  const THE_STOP := CallSite(2, 0, false)
  const SECOND_WAIT := CallSite(2, 1, false)

  // Every way to the stop has waited first, and still the order is not proven.
  lemma LaterWaitHidesEarlier()
    ensures AlwaysPreceded(GIVES_UP, [FIRST_WAIT, SECOND_WAIT], THE_STOP)
    ensures THE_STOP.block in BlocksOf([FIRST_WAIT, SECOND_WAIT])
      && !EarlierInBlock([FIRST_WAIT, SECOND_WAIT], THE_STOP)
  {
    var waits := [FIRST_WAIT, SECOND_WAIT];
    forall es | IsWalk(GIVES_UP, Any, 0, es, 2) ensures PrecededOn(GIVES_UP, es, waits, THE_STOP) {
      assert FIRST_WAIT in waits && Earlier(0, FIRST_WAIT, |es|, THE_STOP);
      assert BlockAt(0, es, 0) == 0;
    }
    assert SECOND_WAIT in waits;
  }
}
