/**
 Control-flow graphs and their walks, with the four reachability queries.

 A block carries its own ID, the statements it runs in order, its outgoing edges and the
 sources of its incoming ones.  Spans and labels play no part in any query and are left out;
 within one graph the triple (from, to, kind) already names an edge.
 */
module Graph {
  type BlockId = nat

  datatype EdgeKind =
    | Normal | IfTrue | IfFalse | Case | Fallthrough | Break | Continue
    | LoopBack | Goto | Return | Panic | TrustedStop

  datatype Edge = Edge(from: BlockId, to: BlockId, kind: EdgeKind)

  // An instruction is named by the statement it was emitted for.
  type Instr = nat

  datatype BasicBlock = BasicBlock(id: BlockId, instrs: seq<Instr>, succs: seq<Edge>, preds: seq<BlockId>)

  datatype CFG = CFG(entry: BlockId, exit: BlockId, blocks: seq<BasicBlock>)

  // Every edge is stored at its source and stays inside the graph.
  ghost predicate EdgesInRange(blocks: seq<BasicBlock>) {
    forall b, j :: 0 <= b < |blocks| && 0 <= j < |blocks[b].succs| ==>
      blocks[b].succs[j].from == b && blocks[b].succs[j].to < |blocks|
  }

  // b lists p as a predecessor exactly when p has an edge to b.
  ghost predicate Mirrored(blocks: seq<BasicBlock>) {
    forall b: nat, p: nat :: b < |blocks| ==>
      (p in blocks[b].preds <==> HasEdge(blocks, p, b))
  }

  ghost predicate HasEdge(blocks: seq<BasicBlock>, p: BlockId, b: BlockId) {
    p < |blocks| && exists e :: e in blocks[p].succs && e.to == b
  }

  ghost predicate Valid(g: CFG) {
    && g.entry < |g.blocks| && g.exit < |g.blocks|
    && EdgesInRange(g.blocks)
    && Mirrored(g.blocks)
  }

  // The block IDs of a graph with n blocks.
  function Below(n: nat): (s: set<nat>)
    ensures |s| == n && forall b: nat :: b in s <==> b < n
  {
    if n == 0 then {} else Below(n - 1) + {n - 1}
  }

  predicate Any(e: Edge) { true }

  // es leads from a to b, along edges of g that pass the filter.
  ghost predicate IsWalk(g: CFG, ok: Edge -> bool, a: BlockId, es: seq<Edge>, b: BlockId)
    decreases es
  {
    if es == [] then a == b && a < |g.blocks|
    else a < |g.blocks| && es[0] in g.blocks[a].succs && ok(es[0]) && IsWalk(g, ok, es[0].to, es[1..], b)
  }

  ghost predicate Reach(g: CFG, ok: Edge -> bool, a: BlockId, b: BlockId) {
    exists es :: IsWalk(g, ok, a, es, b)
  }

  ghost predicate OnCycle(g: CFG, b: BlockId) {
    b < |g.blocks| && exists e :: e in g.blocks[b].succs && Reach(g, Any, e.to, b)
  }

  /****** Walks compose ******/

  lemma {:induction false} WalkAppend(g: CFG, ok: Edge -> bool, a: BlockId, p: seq<Edge>, b: BlockId, q: seq<Edge>,
      c: BlockId)
    requires IsWalk(g, ok, a, p, b) && IsWalk(g, ok, b, q, c)
    ensures IsWalk(g, ok, a, p + q, c)
    decreases p
  {
    if p == [] {
      assert p + q == q;
    } else {
      WalkAppend(g, ok, p[0].to, p[1..], b, q, c);
      assert (p + q)[1..] == p[1..] + q;
    }
  }

  lemma {:induction false} WalkSplit(g: CFG, ok: Edge -> bool, a: BlockId, es: seq<Edge>, b: BlockId, k: nat)
    returns (m: BlockId)
    requires IsWalk(g, ok, a, es, b) && k <= |es|
    ensures IsWalk(g, ok, a, es[..k], m) && IsWalk(g, ok, m, es[k..], b)
    ensures m == if k == 0 then a else es[k - 1].to
    decreases es
  {
    if k == 0 {
      m := a;
      assert es[0..] == es && IsWalk(g, ok, a, [], a);
    } else {
      m := WalkSplit(g, ok, es[0].to, es[1..], b, k - 1);
      assert es[..k][1..] == es[1..][..k - 1] && es[1..][k - 1..] == es[k..];
    }
  }

  lemma ReachRefl(g: CFG, ok: Edge -> bool, a: BlockId)
    requires a < |g.blocks|
    ensures Reach(g, ok, a, a)
  {
    assert IsWalk(g, ok, a, [], a);
  }

  lemma ReachEdge(g: CFG, ok: Edge -> bool, a: BlockId, e: Edge)
    requires a < |g.blocks| && e in g.blocks[a].succs && ok(e) && e.to < |g.blocks|
    ensures Reach(g, ok, a, e.to)
  {
    assert IsWalk(g, ok, e.to, [e][1..], e.to);
    assert IsWalk(g, ok, a, [e], e.to);
  }

  lemma ReachTrans(g: CFG, ok: Edge -> bool, a: BlockId, b: BlockId, c: BlockId)
    requires Reach(g, ok, a, b) && Reach(g, ok, b, c)
    ensures Reach(g, ok, a, c)
  {
    var p :| IsWalk(g, ok, a, p, b);
    var q :| IsWalk(g, ok, b, q, c);
    WalkAppend(g, ok, a, p, b, q, c);
  }

  // A set that holds the start and is closed under permitted edges holds all that is reached.
  lemma {:induction false} ClosedContainsWalk(g: CFG, ok: Edge -> bool, S: set<BlockId>, a: BlockId, es: seq<Edge>,
      b: BlockId)
    requires IsWalk(g, ok, a, es, b) && a in S
    requires forall x, e :: x in S && x < |g.blocks| && e in g.blocks[x].succs && ok(e) ==> e.to in S
    ensures b in S
    decreases es
  {
    if es != [] {
      ClosedContainsWalk(g, ok, S, es[0].to, es[1..], b);
    }
  }

  // A walk that starts in S and ends outside it crosses the border.
  lemma {:induction false} CrossingEdge(g: CFG, ok: Edge -> bool, S: set<BlockId>, a: BlockId, es: seq<Edge>,
      b: BlockId) returns (x: BlockId, e: Edge)
    requires IsWalk(g, ok, a, es, b) && a in S && b !in S
    ensures x in S && x < |g.blocks| && e in g.blocks[x].succs && ok(e) && e.to !in S
    ensures Reach(g, ok, a, x) && Reach(g, ok, e.to, b)
    decreases es
  {
    if es[0].to in S {
      x, e := CrossingEdge(g, ok, S, es[0].to, es[1..], b);
      WalkAppend(g, ok, a, [es[0]], es[0].to, [], es[0].to) by {
        assert IsWalk(g, ok, es[0].to, [es[0]][1..], es[0].to);
      }
      assert [es[0]] + [] == [es[0]];
      ReachTrans(g, ok, a, es[0].to, x);
    } else {
      x, e := a, es[0];
      ReachRefl(g, ok, a);
    }
  }

  lemma {:induction false} WalkStaysInRange(g: CFG, ok: Edge -> bool, a: BlockId, es: seq<Edge>, b: BlockId)
    requires IsWalk(g, ok, a, es, b)
    ensures a < |g.blocks| && b < |g.blocks|
    decreases es
  {
    if es != [] {
      WalkStaysInRange(g, ok, es[0].to, es[1..], b);
    }
  }

  /****** Depth-first queries ******/

  // Reachable: every block some walk from start ends at.
  method Reachable(g: CFG, start: BlockId) returns (seen: set<BlockId>)
    requires EdgesInRange(g.blocks) && start < |g.blocks|
    ensures forall b :: b in seen <==> Reach(g, Any, start, b)
  {
    seen := ReachableAvoidingEdges(g, start, {}, _ => false);
    forall b ensures b in seen <==> Reach(g, Any, start, b) {
      SameFilter(g, Permitted({}, _ => false), Any, start, b);
    }
  }

  // What a query with these avoided blocks and skipped edges may follow.
  function Permitted(avoid: set<BlockId>, skip: Edge -> bool): Edge -> bool {
    (e: Edge) => e.to !in avoid && !skip(e)
  }

  lemma SameFilter(g: CFG, p: Edge -> bool, q: Edge -> bool, a: BlockId, b: BlockId)
    requires forall e :: p(e) == q(e)
    ensures Reach(g, p, a, b) == Reach(g, q, a, b)
  {
    forall es ensures IsWalk(g, p, a, es, b) == IsWalk(g, q, a, es, b) {
      SameFilterWalk(g, p, q, a, es, b);
    }
  }

  lemma {:induction false} SameFilterWalk(g: CFG, p: Edge -> bool, q: Edge -> bool, a: BlockId, es: seq<Edge>,
      b: BlockId)
    requires forall e :: p(e) == q(e)
    ensures IsWalk(g, p, a, es, b) == IsWalk(g, q, a, es, b)
    decreases es
  {
    if es != [] {
      SameFilterWalk(g, p, q, es[0].to, es[1..], b);
    }
  }

  method ReachableAvoiding(g: CFG, start: BlockId, avoid: set<BlockId>) returns (seen: set<BlockId>)
    requires EdgesInRange(g.blocks) && start < |g.blocks|
    ensures forall b :: b in seen <==> start !in avoid && Reach(g, Permitted(avoid, _ => false), start, b)
  {
    var none: Edge -> bool := _ => false;
    seen := ReachableAvoidingEdges(g, start, avoid, none);
    forall b ensures Reach(g, Permitted(avoid, none), start, b) == Reach(g, Permitted(avoid, _ => false), start, b) {
      SameFilter(g, Permitted(avoid, none), Permitted(avoid, _ => false), start, b);
    }
  }

  // The blocks a walk from start reaches without entering avoid (not even at the start)
  // and without taking a skipped edge.
  method ReachableAvoidingEdges(g: CFG, start: BlockId, avoid: set<BlockId>, skip: Edge -> bool)
    returns (seen: set<BlockId>)
    requires EdgesInRange(g.blocks) && start < |g.blocks|
    ensures forall b :: b in seen <==> start !in avoid && Reach(g, Permitted(avoid, skip), start, b)
  {
    hide Reach;
    seen := {};
    if start in avoid { return; }
    ghost var ok := Permitted(avoid, skip);
    ghost var all := Below(|g.blocks|);
    seen := {start};
    var stack := [start];
    ReachRefl(g, ok, start);
    while stack != []
      invariant start in seen && seen <= all
      invariant forall b :: b in seen ==> Reach(g, ok, start, b)
      invariant forall b :: b in stack ==> b in seen
      invariant forall b, e :: b in seen && b !in stack && e in g.blocks[b].succs && ok(e) ==> e.to in seen
      decreases all - seen, |stack|
    {
      var id := stack[|stack| - 1];
      assert id in stack;
      ghost var before := stack;
      ghost var seen0 := seen;
      stack := stack[..|stack| - 1];
      var succs := g.blocks[id].succs;
      assert forall b :: b in before ==> b == id || b in stack;
      for i := 0 to |succs|
        invariant start in seen && seen <= all && seen0 <= seen
        invariant forall b :: b in seen ==> Reach(g, ok, start, b)
        invariant forall b :: b in stack ==> b in seen
        invariant forall b :: b in before ==> b == id || b in stack
        invariant forall b :: b in seen && b !in seen0 ==> b in stack
        invariant forall b, e :: b in seen && b != id && b !in stack && e in g.blocks[b].succs && ok(e) ==> e.to in seen
        invariant forall k :: 0 <= k < i && ok(succs[k]) ==> succs[k].to in seen
        invariant seen == seen0 ==> |stack| < |before|
      {
        var e := succs[i];
        assert e in g.blocks[id].succs;
        if e.to in avoid || e.to in seen || skip(e) { continue; }
        ReachEdge(g, ok, id, e);
        ReachTrans(g, ok, start, id, e.to);
        seen := seen + {e.to};
        stack := stack + [e.to];
      }
      assert all - seen <= all - seen0;
      if seen != seen0 {
        var x :| x in seen && x !in seen0;
        assert x in all - seen0 && x !in all - seen;
      }
    }
    ClosedContains(g, ok, seen, start);
  }

  lemma ClosedContains(g: CFG, ok: Edge -> bool, S: set<BlockId>, start: BlockId)
    requires start in S && forall x, e :: x in S && x < |g.blocks| && e in g.blocks[x].succs && ok(e) ==> e.to in S
    ensures forall b :: Reach(g, ok, start, b) ==> b in S
  {
    forall b | Reach(g, ok, start, b) ensures b in S {
      var es :| IsWalk(g, ok, start, es, b);
      ClosedContainsWalk(g, ok, S, start, es, b);
    }
  }

  // CanReach: every block from which some walk ends at target, found by following
  // predecessor lists backward.
  method CanReach(g: CFG, target: BlockId) returns (seen: set<BlockId>)
    requires EdgesInRange(g.blocks) && Mirrored(g.blocks) && target < |g.blocks|
    ensures forall b :: b in seen <==> Reach(g, Any, b, target)
  {
    hide Reach;
    ghost var all := Below(|g.blocks|);
    seen := {target};
    var stack := [target];
    ReachRefl(g, Any, target);
    while stack != []
      invariant target in seen && seen <= all
      invariant forall b :: b in seen ==> Reach(g, Any, b, target)
      invariant forall b :: b in stack ==> b in seen
      invariant forall b, p :: b in seen && b !in stack && p in g.blocks[b].preds ==> p in seen
      decreases all - seen, |stack|
    {
      var id := stack[|stack| - 1];
      assert id in stack;
      ghost var before := stack;
      ghost var seen0 := seen;
      stack := stack[..|stack| - 1];
      var preds := g.blocks[id].preds;
      assert forall b :: b in before ==> b == id || b in stack;
      for i := 0 to |preds|
        invariant target in seen && seen <= all && seen0 <= seen
        invariant forall b :: b in seen ==> Reach(g, Any, b, target)
        invariant forall b :: b in stack ==> b in seen
        invariant forall b :: b in before ==> b == id || b in stack
        invariant forall b :: b in seen && b !in seen0 ==> b in stack
        invariant forall b, p :: b in seen && b != id && b !in stack && p in g.blocks[b].preds ==> p in seen
        invariant forall k :: 0 <= k < i ==> preds[k] in seen
        invariant seen == seen0 ==> |stack| < |before|
      {
        var p := preds[i];
        assert p in g.blocks[id].preds;
        if p !in seen {
          assert HasEdge(g.blocks, p, id);
          var e :| e in g.blocks[p].succs && e.to == id;
          ReachEdge(g, Any, p, e);
          ReachTrans(g, Any, p, id, target);
          seen := seen + {p};
          stack := stack + [p];
        }
      }
      assert all - seen <= all - seen0;
      if seen != seen0 {
        var x :| x in seen && x !in seen0;
        assert x in all - seen0 && x !in all - seen;
      }
    }
    AllBehind(g, seen, target);
  }

  lemma AllBehind(g: CFG, S: set<BlockId>, target: BlockId)
    requires Mirrored(g.blocks) && target in S
    requires forall x, p :: x in S && x < |g.blocks| && p in g.blocks[x].preds ==> p in S
    ensures forall b :: Reach(g, Any, b, target) ==> b in S
  {
    forall b | Reach(g, Any, b, target) ensures b in S {
      var es :| IsWalk(g, Any, b, es, target);
      BackwardClosed(g, S, b, es, target);
    }
  }

  lemma {:induction false} BackwardClosed(g: CFG, S: set<BlockId>, a: BlockId, es: seq<Edge>, b: BlockId)
    requires Mirrored(g.blocks) && IsWalk(g, Any, a, es, b) && b in S
    requires forall x, p :: x in S && x < |g.blocks| && p in g.blocks[x].preds ==> p in S
    ensures a in S
    decreases es
  {
    if es != [] {
      BackwardClosed(g, S, es[0].to, es[1..], b);
      WalkStaysInRange(g, Any, es[0].to, es[1..], b);
      assert HasEdge(g.blocks, a, es[0].to);
    }
  }
}
