/**
 The obligation query: can a run leave the function with an acquired resource undischarged?

 A run is a walk from the entry to the exit; it executes every instruction of every block on
 it.  An after discharge counts only past the acquisition, an anywhere discharge (a deferred
 call, or a Wait) wherever it sits on the run.
 */
module Obligation {
  import opened Wrappers
  import opened Graph
  import opened Building
  import Verdict

  /****** Runs ******/

  ghost predicate Run(g: CFG, es: seq<Edge>) {
    IsWalk(g, Any, g.entry, es, g.exit)
  }

  // The block a walk from a is in after k edges.
  function BlockAt(a: BlockId, es: seq<Edge>, k: nat): BlockId
    requires k <= |es|
  {
    if k == 0 then a else es[k - 1].to
  }

  // Instruction x, met at step j, comes strictly after instruction o, met at step k.
  predicate Past(j: nat, x: CallSite, k: nat, o: CallSite) {
    j > k || (j == k && x.index > o.index)
  }

  // The run meets origin o at step k and goes on to the exit without any discharge that
  // counts and without a skipped edge.
  ghost predicate Bypass(g: CFG, es: seq<Edge>, k: nat, o: CallSite, after: seq<CallSite>, anywhere: seq<CallSite>,
      skip: Edge -> bool) {
    && Run(g, es) && k < |es| && BlockAt(g.entry, es, k) == o.block
    && (forall j: nat, d :: j <= |es| && d in anywhere ==> BlockAt(g.entry, es, j) != d.block)
    && (forall j: nat, d :: k <= j <= |es| && d in after && BlockAt(g.entry, es, j) == d.block ==> !Past(j, d, k, o))
    && (forall j: nat :: k <= j < |es| ==> !skip(es[j]))
  }

  /****** Sites and blocks ******/

  function BlocksOf(sites: seq<CallSite>): set<BlockId> {
    set d | d in sites :: d.block
  }

  // An after discharge behind the origin in its own block.
  predicate SettledInBlock(o: CallSite, after: seq<CallSite>) {
    exists d :: d in after && d.block == o.block && d.index > o.index
  }

  // From the origin the exit is reached over blocks without discharges.
  ghost predicate LeftOpen(g: CFG, o: CallSite, after: seq<CallSite>, anywhere: seq<CallSite>, skip: Edge -> bool) {
    && o.block < |g.blocks| && o.block !in BlocksOf(anywhere) && !SettledInBlock(o, after)
    && exists e :: e in g.blocks[o.block].succs && OpenEdge(g, e, after, anywhere, skip)
  }

  ghost predicate OpenEdge(g: CFG, e: Edge, after: seq<CallSite>, anywhere: seq<CallSite>, skip: Edge -> bool) {
    var avoid := BlocksOf(after) + BlocksOf(anywhere);
    !skip(e) && e.to !in avoid && Reach(g, Permitted(avoid, skip), e.to, g.exit)
  }

  // The origin is reached without passing an anywhere discharge.
  ghost predicate Clear(g: CFG, o: CallSite, anywhere: seq<CallSite>) {
    g.entry !in BlocksOf(anywhere) && Reach(g, Permitted(BlocksOf(anywhere), _ => false), g.entry, o.block)
  }

  /****** The query ******/

  method IsSettled(o: CallSite, after: seq<CallSite>) returns (settled: bool)
    ensures settled <==> SettledInBlock(o, after)
  {
    for i := 0 to |after|
      invariant forall k :: 0 <= k < i ==> !(after[k].block == o.block && after[k].index > o.index)
    {
      if after[i].block == o.block && after[i].index > o.index {
        assert after[i] in after;
        return true;
      }
    }
    return false;
  }

  method AnyOpenEdge(g: CFG, o: CallSite, avoid: set<BlockId>, skip: Edge -> bool, ghost after: seq<CallSite>,
      ghost anywhere: seq<CallSite>) returns (open: bool)
    requires EdgesInRange(g.blocks) && o.block < |g.blocks| && avoid == BlocksOf(after) + BlocksOf(anywhere)
    ensures open <==> exists e :: e in g.blocks[o.block].succs && OpenEdge(g, e, after, anywhere, skip)
  {
    hide Reach;
    var succs := g.blocks[o.block].succs;
    for i := 0 to |succs|
      invariant forall k :: 0 <= k < i ==> !OpenEdge(g, succs[k], after, anywhere, skip)
    {
      var e := succs[i];
      if skip(e) { continue; }
      var seen := ReachableAvoidingEdges(g, e.to, avoid, skip);
      if g.exit in seen {
        assert e in succs;
        return true;
      }
    }
    return false;
  }

  // liveExitReachable.  The answer is known as soon as there is an origin.  When every
  // origin can be reached at all, it is exact: some run bypasses every discharge.
  method LiveExitReachable(g: CFG, origins: seq<CallSite>, after: seq<CallSite>, anywhere: seq<CallSite>,
      skip: Edge -> bool)
    returns (reachable: bool, known: bool)
    requires Verdict.ExitIsFinal(g) && forall o :: o in origins ==> o.block < |g.blocks|
    ensures known <==> origins != []
    ensures reachable <==>
      exists o :: o in origins && LeftOpen(g, o, after, anywhere, skip) && (anywhere == [] || Clear(g, o, anywhere))
    ensures (forall o :: o in origins ==> Reach(g, Any, g.entry, o.block)) ==>
      (reachable <==> exists o, es, k :: o in origins && Bypass(g, es, k, o, after, anywhere, skip))
  {
    hide Reach, LeftOpen, Clear, Bypass, Mirrored;
    var anywhereBlocks := BlocksOf(anywhere);
    var avoid := BlocksOf(after) + anywhereBlocks;
    reachable, known := false, false;
    for i := 0 to |origins|
      invariant known <==> i > 0
      invariant !reachable && forall j :: 0 <= j < i ==>
        !(LeftOpen(g, origins[j], after, anywhere, skip) && (anywhere == [] || Clear(g, origins[j], anywhere)))
    {
      var o := origins[i];
      assert o in origins;
      known := true;
      var settled := IsSettled(o, after);
      var closed := o.block in anywhereBlocks || settled;
      if closed { assert !LeftOpen(g, o, after, anywhere, skip) by { NotOpen(g, o, after, anywhere, skip); } continue; }
      if |anywhere| > 0 {
        var seen := ReachableAvoiding(g, g.entry, anywhereBlocks);
        NotClear(g, o, anywhere);
        if o.block !in seen { continue; }
      }
      var open := AnyOpenEdge(g, o, avoid, skip, after, anywhere);
      OpenIs(g, o, after, anywhere, skip);
      if open { reachable := true; break; }
    }
    OnRuns(g, origins, after, anywhere, skip);
  }

  lemma NotOpen(g: CFG, o: CallSite, after: seq<CallSite>, anywhere: seq<CallSite>, skip: Edge -> bool)
    requires o.block in BlocksOf(anywhere) || SettledInBlock(o, after)
    ensures !LeftOpen(g, o, after, anywhere, skip)
  {}

  lemma OpenIs(g: CFG, o: CallSite, after: seq<CallSite>, anywhere: seq<CallSite>, skip: Edge -> bool)
    requires o.block < |g.blocks| && o.block !in BlocksOf(anywhere) && !SettledInBlock(o, after)
    ensures LeftOpen(g, o, after, anywhere, skip) <==>
      exists e :: e in g.blocks[o.block].succs && OpenEdge(g, e, after, anywhere, skip)
  {}

  lemma NotClear(g: CFG, o: CallSite, anywhere: seq<CallSite>)
    ensures Clear(g, o, anywhere) <==>
      g.entry !in BlocksOf(anywhere) && Reach(g, Permitted(BlocksOf(anywhere), _ => false), g.entry, o.block)
  {}

  /****** What the query says about runs ******/

  lemma {:induction false} FilterWalk(g: CFG, ok: Edge -> bool, a: BlockId, es: seq<Edge>, b: BlockId)
    ensures IsWalk(g, ok, a, es, b) <==> IsWalk(g, Any, a, es, b) && forall j :: 0 <= j < |es| ==> ok(es[j])
    decreases es
  {
    if es != [] {
      FilterWalk(g, ok, es[0].to, es[1..], b);
      if IsWalk(g, ok, a, es, b) {
        forall j | 0 <= j < |es| ensures ok(es[j]) { if j > 0 { assert es[j] == es[1..][j - 1]; } }
      }
      if forall j :: 0 <= j < |es| ==> ok(es[j]) {
        forall j | 0 <= j < |es[1..]| ensures ok(es[1..][j]) { assert es[1..][j] == es[j + 1]; }
      }
    }
  }

  // A run that bypasses every discharge shows the origin left open and clear.
  lemma BypassIsOpen(g: CFG, es: seq<Edge>, k: nat, o: CallSite, after: seq<CallSite>, anywhere: seq<CallSite>,
      skip: Edge -> bool)
    requires Bypass(g, es, k, o, after, anywhere, skip)
    ensures LeftOpen(g, o, after, anywhere, skip) && Clear(g, o, anywhere)
  {
    var none: Edge -> bool := _ => false;
    var avoid := BlocksOf(after) + BlocksOf(anywhere);
    var m := WalkSplit(g, Any, g.entry, es, g.exit, k);
    var p, q := es[..k], es[k..];
    forall d | d in anywhere ensures d.block != g.entry && d.block != o.block {
      assert BlockAt(g.entry, es, 0) == g.entry;
    }
    forall j | 0 <= j < |p| ensures Permitted(BlocksOf(anywhere), none)(p[j]) {
      assert BlockAt(g.entry, es, j + 1) == p[j].to;
    }
    FilterWalk(g, Permitted(BlocksOf(anywhere), none), g.entry, p, o.block);
    assert Clear(g, o, anywhere) by {
      SameFilter(g, Permitted(BlocksOf(anywhere), none), Permitted(BlocksOf(anywhere), _ => false), g.entry, o.block);
    }
    forall d | d in after && d.block == o.block ensures d.index <= o.index { assert !Past(k, d, k, o); }
    var r := q[1..];
    assert q[0] == es[k] && BlockAt(g.entry, es, k + 1) == q[0].to;
    forall d | d in after ensures d.block != q[0].to { assert Past(k + 1, d, k, o); }
    forall j | 0 <= j < |r| ensures Permitted(avoid, skip)(r[j]) {
      assert r[j] == es[k + 1 + j] && BlockAt(g.entry, es, k + 2 + j) == r[j].to;
      forall d | d in after ensures d.block != r[j].to { assert Past(k + 2 + j, d, k, o); }
    }
    FilterWalk(g, Permitted(avoid, skip), q[0].to, r, g.exit);
    assert OpenEdge(g, q[0], after, anywhere, skip);
  }

  lemma OpenIsBypass(g: CFG, o: CallSite, after: seq<CallSite>, anywhere: seq<CallSite>, skip: Edge -> bool)
    returns (es: seq<Edge>, k: nat)
    requires LeftOpen(g, o, after, anywhere, skip) && Clear(g, o, anywhere)
    ensures Bypass(g, es, k, o, after, anywhere, skip)
  {
    var avoid := BlocksOf(after) + BlocksOf(anywhere);
    var e :| e in g.blocks[o.block].succs && OpenEdge(g, e, after, anywhere, skip);
    var clear := Permitted(BlocksOf(anywhere), _ => false);
    var p :| IsWalk(g, clear, g.entry, p, o.block);
    var r :| IsWalk(g, Permitted(avoid, skip), e.to, r, g.exit);
    FilterWalk(g, clear, g.entry, p, o.block);
    FilterWalk(g, Permitted(avoid, skip), e.to, r, g.exit);
    assert ([e] + r)[1..] == r;
    assert IsWalk(g, Any, o.block, [e] + r, g.exit);
    WalkAppend(g, Any, g.entry, p, o.block, [e] + r, g.exit);
    es, k := p + ([e] + r), |p|;
    OpenSteps(g, o, p, e, r, after, anywhere, skip);
    OpenMeets(g, o, p, e, r, after, anywhere, skip);
  }

  // The blocks of the run that is put together from p, e and r.
  lemma OpenSteps(g: CFG, o: CallSite, p: seq<Edge>, e: Edge, r: seq<Edge>, after: seq<CallSite>,
      anywhere: seq<CallSite>, skip: Edge -> bool)
    requires !skip(e) && e.to !in BlocksOf(after) + BlocksOf(anywhere) && g.entry !in BlocksOf(anywhere)
      && o.block !in BlocksOf(anywhere)
    requires IsWalk(g, Any, g.entry, p, o.block)
    requires forall j :: 0 <= j < |p| ==> Permitted(BlocksOf(anywhere), _ => false)(p[j])
    requires forall j :: 0 <= j < |r| ==> Permitted(BlocksOf(after) + BlocksOf(anywhere), skip)(r[j])
    ensures var es := p + ([e] + r);
      && BlockAt(g.entry, es, |p|) == o.block
      && (forall j: nat :: j <= |es| ==> BlockAt(g.entry, es, j) !in BlocksOf(anywhere))
      && (forall j: nat :: |p| < j <= |es| ==> BlockAt(g.entry, es, j) !in BlocksOf(after))
      && (forall j: nat :: |p| <= j < |es| ==> !skip(es[j]))
  {
    var es := p + ([e] + r);
    var m := WalkSplit(g, Any, g.entry, p, o.block, |p|);
    assert p[|p|..] == [] && m == o.block;
    forall j: nat | j < |es|
      ensures es[j].to !in BlocksOf(anywhere) && (|p| <= j ==> es[j].to !in BlocksOf(after) && !skip(es[j])) {
      if j < |p| { assert es[j] == p[j]; } else if j > |p| { assert es[j] == r[j - |p| - 1]; }
    }
  }

  lemma OpenMeets(g: CFG, o: CallSite, p: seq<Edge>, e: Edge, r: seq<Edge>, after: seq<CallSite>,
      anywhere: seq<CallSite>, skip: Edge -> bool)
    requires !SettledInBlock(o, after)
    requires var es := p + ([e] + r);
      && Run(g, es) && BlockAt(g.entry, es, |p|) == o.block
      && (forall j: nat :: j <= |es| ==> BlockAt(g.entry, es, j) !in BlocksOf(anywhere))
      && (forall j: nat :: |p| < j <= |es| ==> BlockAt(g.entry, es, j) !in BlocksOf(after))
      && (forall j: nat :: |p| <= j < |es| ==> !skip(es[j]))
    ensures Bypass(g, p + ([e] + r), |p|, o, after, anywhere, skip)
  {}

  // With all origins reachable, the query is about runs.
  lemma OnRuns(g: CFG, origins: seq<CallSite>, after: seq<CallSite>, anywhere: seq<CallSite>, skip: Edge -> bool)
    requires g.entry < |g.blocks|
    ensures (forall o :: o in origins ==> Reach(g, Any, g.entry, o.block)) ==>
      ((exists o :: o in origins && LeftOpen(g, o, after, anywhere, skip) && (anywhere == [] || Clear(g, o, anywhere)))
       <==> exists o, es, k :: o in origins && Bypass(g, es, k, o, after, anywhere, skip))
  {
    hide LeftOpen, Clear, Bypass, Reach;
    if forall o :: o in origins ==> Reach(g, Any, g.entry, o.block) {
      if o :| o in origins && LeftOpen(g, o, after, anywhere, skip) && (anywhere == [] || Clear(g, o, anywhere)) {
        if anywhere == [] { AlwaysClear(g, o); }
        var es, k := OpenIsBypass(g, o, after, anywhere, skip);
      }
      if o, es, k :| o in origins && Bypass(g, es, k, o, after, anywhere, skip) {
        BypassIsOpen(g, es, k, o, after, anywhere, skip);
      }
    }
  }

  lemma AlwaysClear(g: CFG, o: CallSite)
    requires Reach(g, Any, g.entry, o.block)
    ensures Clear(g, o, [])
  {
    SameFilter(g, Any, Permitted(BlocksOf([]), _ => false), g.entry, o.block);
  }

  /****** Cancel functions ******/

  // On the run, after meeting the acquisition at step k, a plain call runs or a deferred
  // call has been registered.
  ghost predicate Discharges(g: CFG, es: seq<Edge>, k: nat, o: CallSite, plain: seq<CallSite>,
      deferred: seq<CallSite>) {
    || (exists j: nat, d :: j <= |es| && d in deferred && BlockAt(g.entry, es, j) == d.block)
    || (exists j: nat, d :: k <= j <= |es| && d in plain && BlockAt(g.entry, es, j) == d.block && Past(j, d, k, o))
  }

  ghost predicate Skips(es: seq<Edge>, k: nat, skip: Edge -> bool) {
    exists j: nat :: k <= j < |es| && skip(es[j])
  }

  // Every run that acquires, and does not then take a skipped edge, calls the function.
  ghost predicate AlwaysCalled(g: CFG, o: CallSite, plain: seq<CallSite>, deferred: seq<CallSite>, skip: Edge -> bool) {
    forall es, k: nat :: Run(g, es) && k < |es| && BlockAt(g.entry, es, k) == o.block ==>
      Discharges(g, es, k, o, plain, deferred) || Skips(es, k, skip)
  }

  // CalledOnAllPaths.  If no call has a place in the graph, the answer is no when only a
  // callee may call the function, and there is none otherwise.  If a call has a place, there
  // is an answer when the acquisition has one.  It is then yes only if every run calls the
  // function, and exactly then unless the acquisition is dead code; in dead code without
  // deferred calls it tells whether the exit could be reached from there.
  method CalledOnAllPaths(g: CFG, acquired: Option<CallSite>, plain: seq<CallSite>, deferred: seq<CallSite>,
      may: seq<CallSite>, skip: Edge -> bool)
    returns (answer: Option<bool>)
    requires Verdict.ExitIsFinal(g) && (acquired.Some? ==> acquired.value.block < |g.blocks|)
    ensures plain == [] && deferred == [] ==> answer == if may == [] then None else Some(false)
    ensures plain != [] || deferred != [] ==> (answer.None? <==> acquired.None?)
    ensures answer == Some(true) ==> AlwaysCalled(g, acquired.value, plain, deferred, skip)
    ensures (plain != [] || deferred != []) && answer == Some(false) ==>
      var o := acquired.value;
      if Reach(g, Any, g.entry, o.block) then !AlwaysCalled(g, o, plain, deferred, skip)
      else deferred == [] && LeftOpen(g, o, plain, [], skip)
    ensures answer == Some(true) && deferred == [] ==> !LeftOpen(g, acquired.value, plain, [], skip)
    ensures (plain != [] || deferred != []) && acquired.Some? && Reach(g, Any, g.entry, acquired.value.block) ==>
      (answer == Some(false) <==> exists es, k :: Bypass(g, es, k, acquired.value, plain, deferred, skip))
  {
    hide Reach, LeftOpen, Clear, Mirrored, Bypass, Discharges, Skips, Run;
    if |plain| + |deferred| == 0 { return if |may| > 0 then Some(false) else None; }
    var origins := if acquired.Some? then [acquired.value] else [];
    var bypassed, known := LiveExitReachable(g, origins, plain, deferred, skip);
    if !known { return None; }
    ghost var o := acquired.value;
    assert forall x :: x in origins <==> x == o;
    if Clear(g, o, deferred) { ClearIsReached(g, o, deferred); }
    forall es, k: nat ensures Bypass(g, es, k, o, plain, deferred, skip) <==>
      Run(g, es) && k < |es| && BlockAt(g.entry, es, k) == o.block && !Discharges(g, es, k, o, plain, deferred)
        && !Skips(es, k, skip)
      ensures Bypass(g, es, k, o, plain, deferred, skip) ==> bypassed
    {
      NoDischarge(g, es, k, o, plain, deferred, skip);
      if Bypass(g, es, k, o, plain, deferred, skip) { BypassIsOpen(g, es, k, o, plain, deferred, skip); }
    }
    return Some(!bypassed);
  }

  lemma ClearIsReached(g: CFG, o: CallSite, anywhere: seq<CallSite>)
    requires Clear(g, o, anywhere)
    ensures Reach(g, Any, g.entry, o.block)
  {
    var ok := Permitted(BlocksOf(anywhere), _ => false);
    var es :| IsWalk(g, ok, g.entry, es, o.block);
    FilterWalk(g, ok, g.entry, es, o.block);
  }

  lemma NoDischarge(g: CFG, es: seq<Edge>, k: nat, o: CallSite, plain: seq<CallSite>, deferred: seq<CallSite>,
      skip: Edge -> bool)
    ensures Bypass(g, es, k, o, plain, deferred, skip) <==>
      Run(g, es) && k < |es| && BlockAt(g.entry, es, k) == o.block && !Discharges(g, es, k, o, plain, deferred)
        && !Skips(es, k, skip)
  {}
}
