/**
 The termination verdict: which reachable cycles can still reach the exit.
 */
module Verdict {
  import opened Graph
  import C = Components

  datatype SccFacts = SccFacts(blocks: seq<BlockId>, resolved: bool)

  datatype TerminationFacts = TerminationFacts(exitReachable: bool, persistent: seq<SccFacts>)

  ghost predicate ClassOf(g: CFG, scc: seq<BlockId>, v: BlockId) {
    v in scc && v < |g.blocks|
    && (forall w :: w in scc ==> w < |g.blocks|)
    && (forall w: nat :: w < |g.blocks| ==> (w in scc <==> C.Mutual(g, v, w)))
  }

  // A block nothing can loop at and that never ends the function.
  ghost predicate Trap(g: CFG, b: BlockId) {
    Reach(g, Any, g.entry, b) && OnCycle(g, b) && !Reach(g, Any, b, g.exit)
  }

  ghost predicate ExitIsFinal(g: CFG) {
    Valid(g) && g.blocks[g.exit].succs == []
  }

  // A component is a genuine cycle exactly when each of its blocks lies on one.
  method IsPersistentSCC(g: CFG, scc: seq<BlockId>) returns (persistent: bool)
    requires EdgesInRange(g.blocks) && C.NoRepeats(scc)
    requires forall v :: v in scc ==> ClassOf(g, scc, v)
    ensures forall v :: v in scc ==> (persistent <==> OnCycle(g, v))
  {
    if |scc| > 1 {
      forall v | v in scc ensures OnCycle(g, v) {
        var w := if v == scc[0] then scc[1] else scc[0];
        assert scc[0] in scc && scc[1] in scc && scc[0] != scc[1];
        assert ClassOf(g, scc, v);
        CycleThrough(g, v, w);
      }
      return true;
    }
    if |scc| == 1 {
      var v := scc[0];
      assert ClassOf(g, scc, v) && scc == [v];
      var succs := g.blocks[v].succs;
      for i := 0 to |succs|
        invariant forall k :: 0 <= k < i ==> succs[k].to != v
      {
        if succs[i].to == v {
          ReachRefl(g, Any, v);
          assert succs[i] in g.blocks[v].succs;
          return true;
        }
      }
      if OnCycle(g, v) { SelfLoop(g, v); }
    }
    return false;
  }

  lemma SelfLoop(g: CFG, v: BlockId)
    requires EdgesInRange(g.blocks) && ClassOf(g, [v], v) && OnCycle(g, v)
    ensures exists e :: e in g.blocks[v].succs && e.to == v
  {
    var e :| e in g.blocks[v].succs && Reach(g, Any, e.to, v);
    C.REdge(g, v, e);
    assert e.to in [v];
  }

  lemma CycleThrough(g: CFG, v: BlockId, w: BlockId)
    requires C.Mutual(g, v, w) && v != w
    ensures OnCycle(g, v)
  {
    var x, e := C.RCrosses(g, {v}, v, w);
    C.RTrans(g, e.to, w, v);
  }

  lemma ExitIsAlone(g: CFG, v: BlockId)
    requires ExitIsFinal(g)
    ensures C.R(g, g.exit, v) ==> !OnCycle(g, v)
  {}

  // A component keeps a way out exactly when one of its edges leaves it for a block that
  // reaches the exit.
  lemma WayOut(g: CFG, scc: seq<BlockId>, v: BlockId)
    requires ExitIsFinal(g) && ClassOf(g, scc, v) && OnCycle(g, v)
    ensures Reach(g, Any, v, g.exit) <==>
      exists x, e :: x in scc && C.Out(g, x, e) && e.to !in scc && Reach(g, Any, e.to, g.exit)
  {
    hide C.R, Reach, OnCycle;
    var S := set x | x in scc;
    if g.exit in scc { ExitIsAlone(g, v); }
    if Reach(g, Any, v, g.exit) {
      var x, e := C.RCrosses(g, S, v, g.exit);
    }
    if exists x, e :: x in scc && C.Out(g, x, e) && e.to !in scc && Reach(g, Any, e.to, g.exit) {
      var x, e :| x in scc && C.Out(g, x, e) && e.to !in scc && Reach(g, Any, e.to, g.exit);
      C.REdge(g, x, e);
      C.RTrans(g, v, x, e.to);
      C.RTrans(g, v, e.to, g.exit);
    }
  }

  // Every reachable block on a cycle is listed in one component, and every listed component
  // is reachable, cyclic, and resolved exactly when its blocks reach the exit.
  ghost predicate Describes(g: CFG, facts: seq<SccFacts>) {
    && (forall k, v :: 0 <= k < |facts| && v in facts[k].blocks ==>
          Reach(g, Any, g.entry, v) && OnCycle(g, v) && (facts[k].resolved <==> Reach(g, Any, v, g.exit)))
    && (forall k :: 0 <= k < |facts| ==> facts[k].blocks != [])
  }

  ghost predicate Lists(facts: seq<SccFacts>, v: BlockId) {
    exists k :: 0 <= k < |facts| && v in facts[k].blocks
  }

  // Whole components, none of them listed twice, and no block twice within one.
  ghost predicate Apart(g: CFG, facts: seq<SccFacts>) {
    && (forall k :: 0 <= k < |facts| ==> C.NoRepeats(facts[k].blocks))
    && (forall k, v :: 0 <= k < |facts| && v in facts[k].blocks ==> ClassOf(g, facts[k].blocks, v))
    && (forall j, k, v :: 0 <= j < k < |facts| && v in facts[j].blocks ==> v !in facts[k].blocks)
  }

  // What is listed comes from the first i components.
  ghost predicate From(facts: seq<SccFacts>, sccs: seq<seq<BlockId>>, i: nat) {
    forall k, v :: 0 <= k < |facts| && v in facts[k].blocks ==> C.InPrefix(sccs, i, v)
  }

  lemma OneMore(g: CFG, sccs: seq<seq<BlockId>>, i: nat, facts: seq<SccFacts>, resolved: bool)
    requires C.AreClasses(g, sccs) && i < |sccs| && Apart(g, facts) && From(facts, sccs, i)
    requires forall v :: v in sccs[i] ==> ClassOf(g, sccs[i], v)
    ensures var more := facts + [SccFacts(sccs[i], resolved)]; Apart(g, more) && From(more, sccs, i + 1)
  {
    hide ClassOf;
    var more := facts + [SccFacts(sccs[i], resolved)];
    forall j, k, v | 0 <= j < k < |more| && v in more[j].blocks ensures v !in more[k].blocks {
      if k == |facts| {
        assert C.InPrefix(sccs, i, v);
        var l :| 0 <= l < i && l < |sccs| && v in sccs[l];
      }
    }
    forall k, v | 0 <= k < |more| && v in more[k].blocks ensures C.InPrefix(sccs, i + 1, v) {
      if k < |facts| {
        assert C.InPrefix(sccs, i, v);
        var l :| 0 <= l < i && l < |sccs| && v in sccs[l];
      } else {
        assert v in sccs[i];
      }
    }
    forall k, v | 0 <= k < |more| && v in more[k].blocks ensures ClassOf(g, more[k].blocks, v) {}
  }

  lemma NoneYet(g: CFG, sccs: seq<seq<BlockId>>)
    ensures Apart(g, []) && From([], sccs, 0)
  {}

  lemma FromMore(facts: seq<SccFacts>, sccs: seq<seq<BlockId>>, i: nat)
    requires From(facts, sccs, i)
    ensures From(facts, sccs, i + 1)
  {
    forall k, v | 0 <= k < |facts| && v in facts[k].blocks ensures C.InPrefix(sccs, i + 1, v) {
      assert C.InPrefix(sccs, i, v);
      var l :| 0 <= l < i && l < |sccs| && v in sccs[l];
    }
  }

  // Does an edge leave scc for a block that can exit?
  method HasEscape(g: CFG, scc: seq<BlockId>, canExit: set<BlockId>) returns (resolved: bool)
    requires forall v :: v in scc ==> v < |g.blocks|
    ensures resolved <==> exists x, e :: x in scc && C.Out(g, x, e) && e.to !in scc && e.to in canExit
  {
    var member := set v | v in scc;
    resolved := false;
    for j := 0 to |scc|
      invariant resolved <==> exists p, e :: 0 <= p < j && C.Out(g, scc[p], e) && e.to !in scc && e.to in canExit
    {
      assert scc[j] in scc;
      var succs := g.blocks[scc[j]].succs;
      ghost var before := resolved;
      for l := 0 to |succs|
        invariant resolved <==> before || exists q :: 0 <= q < l && succs[q].to !in scc && succs[q].to in canExit
      {
        if succs[l].to !in member && succs[l].to in canExit { resolved := true; }
      }
      assert forall e :: C.Out(g, scc[j], e) <==> exists q :: 0 <= q < |succs| && succs[q] == e;
    }
  }

  method SummarizeTermination(g: CFG) returns (facts: TerminationFacts)
    requires ExitIsFinal(g)
    ensures facts.exitReachable <==> Reach(g, Any, g.entry, g.exit)
    ensures Describes(g, facts.persistent) && Apart(g, facts.persistent)
    ensures forall v :: Reach(g, Any, g.entry, v) && OnCycle(g, v) ==> Lists(facts.persistent, v)
  {
    hide Reach, OnCycle, C.R, Mirrored, EdgesInRange, Apart, From;
    var reach := Reachable(g, g.entry);
    var canExit := CanReach(g, g.exit);
    var sccs := C.SCCs(g);
    var persistent: seq<SccFacts> := [];
    assert Apart(g, persistent) && From(persistent, sccs, 0) by { NoneYet(g, sccs); }
    for i := 0 to |sccs|
      invariant Describes(g, persistent) && Apart(g, persistent) && From(persistent, sccs, i)
      invariant forall k, v :: 0 <= k < i && v in sccs[k] && v in reach && OnCycle(g, v) ==> Lists(persistent, v)
    {
      var scc := sccs[i];
      forall v | v in scc ensures ClassOf(g, scc, v) {}
      FromMore(persistent, sccs, i);
      var genuine := IsPersistentSCC(g, scc);
      if !genuine || scc[0] !in reach {
        forall v | v in scc && v in reach && OnCycle(g, v) ensures false {
          ClassReached(g, scc, v, scc[0]);
        }
        continue;
      }
      var resolved := HasEscape(g, scc, canExit);
      forall v | v in scc
        ensures Reach(g, Any, g.entry, v) && OnCycle(g, v) && (resolved <==> Reach(g, Any, v, g.exit)) {
        ClassReached(g, scc, scc[0], v);
        WayOut(g, scc, v);
      }
      OneMore(g, sccs, i, persistent, resolved);
      ghost var shorter := persistent;
      persistent := persistent + [SccFacts(scc, resolved)];
      forall v | Lists(shorter, v) || v in scc ensures Lists(persistent, v) {
        if v in scc { assert v in persistent[|shorter|].blocks; }
        else {
          var k :| 0 <= k < |shorter| && v in shorter[k].blocks;
          assert v in persistent[k].blocks;
        }
      }
    }
    forall v | Reach(g, Any, g.entry, v) && OnCycle(g, v) ensures Lists(persistent, v) {
      ReachInRange(g, g.entry, v);
      assert C.InPrefix(sccs, |sccs|, v);
      var k :| 0 <= k < |sccs| && v in sccs[k];
    }
    return TerminationFacts(g.exit in reach, persistent);
  }

  lemma ClassReached(g: CFG, scc: seq<BlockId>, v: BlockId, w: BlockId)
    requires ClassOf(g, scc, v) && w in scc && Reach(g, Any, g.entry, v)
    ensures Reach(g, Any, g.entry, w)
  {
    ReachTrans(g, Any, g.entry, v, w);
  }

  lemma ReachInRange(g: CFG, a: BlockId, b: BlockId)
    requires Reach(g, Any, a, b)
    ensures a < |g.blocks| && b < |g.blocks|
  {
    var es :| IsWalk(g, Any, a, es, b);
    WalkStaysInRange(g, Any, a, es, b);
  }

  // UnresolvedLoop: some reachable block lies on a cycle and cannot reach the exit.
  method UnresolvedLoop(g: CFG) returns (unresolved: bool)
    requires ExitIsFinal(g)
    ensures unresolved <==> exists b :: Trap(g, b)
  {
    var facts := SummarizeTermination(g);
    var p := facts.persistent;
    for i := 0 to |p|
      invariant forall k :: 0 <= k < i ==> p[k].resolved
    {
      if !p[i].resolved {
        assert p[i].blocks[0] in p[i].blocks;
        assert Trap(g, p[i].blocks[0]);
        return true;
      }
    }
    forall b ensures !Trap(g, b) {}
    return false;
  }
}
