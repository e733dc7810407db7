/**
 The loop verdict read on executions.
 */
module Termination {
  import opened Wrappers
  import opened Graph
  import opened Syntax
  import opened Semantics
  import opened Building
  import opened Simulation
  import opened Bisimulation
  import opened Correctness
  import Verdict

  // Some execution from c ends the function.
  ghost predicate CanEnd(trust: Instr -> bool, body: seq<Stmt>, c: Kont) {
    exists events :: Executes(trust, body, c, events, Done)
  }

  // Executions from c go on for as long as one likes.
  ghost predicate CanGoOn(trust: Instr -> bool, body: seq<Stmt>, c: Kont) {
    forall n: nat :: GoesOnFor(trust, body, c, n)
  }

  ghost predicate GoesOnFor(trust: Instr -> bool, body: seq<Stmt>, c: Kont, n: nat) {
    exists events, d :: n <= |events| && Executes(trust, body, c, events, d)
  }

  // A reachable point from which the machine can run on without end but never finish.
  ghost predicate Trapped(trust: Instr -> bool, body: seq<Stmt>, events: seq<Event>, c: Kont) {
    Executes(trust, body, Start(body), events, c) && CanGoOn(trust, body, c) && !CanEnd(trust, body, c)
  }

  /****** Places and blocks ******/

  lemma {:induction false} WalksAppend(g: CFG, a: Loc, p: seq<Event>, b: Loc, q: seq<Event>, c: Loc)
    requires Walks(g, a, p, b) && Walks(g, b, q, c)
    ensures Walks(g, a, p + q, c)
    decreases p
  {
    hide GraphMoves;
    if p == [] {
      assert p + q == q;
    } else {
      var m :| m in GraphMoves(g, a) && m.event == p[0] && Walks(g, m.next, p[1..], b);
      WalksAppend(g, m.next, p[1..], b, q, c);
      assert (p + q)[0] == p[0] && (p + q)[1..] == p[1..] + q;
    }
  }

  lemma WalksOne(g: CFG, a: Loc, m: GraphMove)
    requires m in GraphMoves(g, a)
    ensures Walks(g, a, [m.event], m.next)
  {
    hide GraphMoves;
    var one := [m.event];
    assert one[1..] == [];
  }

  // From inside a block its end is reached, one instruction after the other.
  lemma {:induction false} ToBlockEnd(g: CFG, b: BlockId, i: nat) returns (events: seq<Event>)
    requires b < |g.blocks| && i <= |g.blocks[b].instrs|
    ensures Walks(g, Loc(b, i), events, Loc(b, |g.blocks[b].instrs|))
    decreases |g.blocks[b].instrs| - i
  {
    if i == |g.blocks[b].instrs| {
      events := [];
    } else {
      var m := GraphMove(Emit(g.blocks[b].instrs[i]), Loc(b, i + 1));
      assert m in GraphMoves(g, Loc(b, i));
      WalksOne(g, Loc(b, i), m);
      var rest := ToBlockEnd(g, b, i + 1);
      WalksAppend(g, Loc(b, i), [m.event], Loc(b, i + 1), rest, Loc(b, |g.blocks[b].instrs|));
      events := [m.event] + rest;
    }
  }

  lemma EdgeIsMove(g: CFG, b: BlockId, e: Edge)
    requires b < |g.blocks| && e in g.blocks[b].succs
    ensures GraphMove(Jump(e.kind), Loc(e.to, 0)) in GraphMoves(g, Loc(b, |g.blocks[b].instrs|))
  {
    var j :| 0 <= j < |g.blocks[b].succs| && g.blocks[b].succs[j] == e;
    assert EdgeMoves(g.blocks[b].succs)[j] == GraphMove(Jump(e.kind), Loc(e.to, 0));
  }

  lemma AlongEdge(g: CFG, b: BlockId, i: nat, e: Edge) returns (events: seq<Event>)
    requires b < |g.blocks| && i <= |g.blocks[b].instrs| && e in g.blocks[b].succs
    ensures events != [] && Walks(g, Loc(b, i), events, Loc(e.to, 0))
  {
    hide GraphMoves, Walks;
    var here := Loc(b, |g.blocks[b].instrs|);
    var inner := ToBlockEnd(g, b, i);
    EdgeIsMove(g, b, e);
    WalksOne(g, here, GraphMove(Jump(e.kind), Loc(e.to, 0)));
    WalksAppend(g, Loc(b, i), inner, here, [Jump(e.kind)], Loc(e.to, 0));
    events := inner + [Jump(e.kind)];
  }

  lemma {:induction false} BlockWalk(g: CFG, a: BlockId, es: seq<Edge>, b: BlockId) returns (events: seq<Event>)
    requires IsWalk(g, Any, a, es, b)
    ensures Walks(g, Loc(a, 0), events, Loc(b, 0))
    decreases es
  {
    hide GraphMoves;
    if es == [] {
      events := [];
    } else {
      var first := AlongEdge(g, a, 0, es[0]);
      var rest := BlockWalk(g, es[0].to, es[1..], b);
      WalksAppend(g, Loc(a, 0), first, Loc(es[0].to, 0), rest, Loc(b, 0));
      events := first + rest;
    }
  }

  lemma {:induction false} PlaceWalk(g: CFG, a: Loc, events: seq<Event>, b: Loc)
    requires Walks(g, a, events, b) && EdgesInRange(g.blocks) && a.block < |g.blocks|
    ensures Reach(g, Any, a.block, b.block)
    ensures b.block == a.block && b.index <= a.index && events != [] ==> OnCycle(g, a.block)
    decreases events
  {
    if events == [] {
      ReachRefl(g, Any, a.block);
    } else {
      var m :| m in GraphMoves(g, a) && m.event == events[0] && Walks(g, m.next, events[1..], b);
      var blk := g.blocks[a.block];
      if a.index < |blk.instrs| {
        PlaceWalk(g, m.next, events[1..], b);
        if events[1..] == [] { assert b == m.next; }
      } else {
        var j :| 0 <= j < |blk.succs| && EdgeMoves(blk.succs)[j] == m;
        assert blk.succs[j] in blk.succs;
        PlaceWalk(g, m.next, events[1..], b);
        ReachEdge(g, Any, a.block, blk.succs[j]);
        ReachTrans(g, Any, a.block, m.next.block, b.block);
      }
    }
  }

  /****** Long walks run in circles ******/

  function InstrPlaces(b: BlockId, n: nat): (r: set<Loc>)
    ensures forall i: nat :: Loc(b, i) in r <==> i < n
    ensures forall x :: x in r ==> x.block == b
  {
    if n == 0 then {} else InstrPlaces(b, n - 1) + {Loc(b, n - 1)}
  }

  ghost function Places(g: CFG, n: nat): (r: set<Loc>)
    requires n <= |g.blocks|
    ensures forall x :: x in r <==> x.block < n && x.index <= |g.blocks[x.block].instrs|
  {
    if n == 0 then {} else Places(g, n - 1) + InstrPlaces(n - 1, |g.blocks[n - 1].instrs| + 1)
  }

  lemma MoveStaysInPlaces(g: CFG, a: Loc, m: GraphMove)
    requires EdgesInRange(g.blocks) && a in Places(g, |g.blocks|) && m in GraphMoves(g, a)
    ensures m.next in Places(g, |g.blocks|)
  {
    var blk := g.blocks[a.block];
    if a.index >= |blk.instrs| {
      var j :| 0 <= j < |blk.succs| && EdgeMoves(blk.succs)[j] == m;
    }
  }

  // seen: places from which a is reached by at least one move.
  lemma {:induction false} LongWalk(g: CFG, start: Loc, a: Loc, events: seq<Event>, b: Loc, seen: set<Loc>)
    returns (x: Loc)
    requires EdgesInRange(g.blocks) && a in Places(g, |g.blocks|) && seen <= Places(g, |g.blocks|)
    requires Walks(g, a, events, b) && |events| + |seen| >= |Places(g, |g.blocks|)|
    requires Connected(g, start, a)
    requires forall y :: y in seen ==> Connected(g, start, y) && Circles(g, y, a)
    ensures Connected(g, start, x) && Circles(g, x, x)
    decreases events
  {
    hide GraphMoves, Walks, Places;
    if a in seen {
      x := a;
    } else {
      var all := Places(g, |g.blocks|);
      var seen' := seen + {a};
      Subset(seen', all);
      assert |seen'| == |seen| + 1;
      var m := FirstMove(g, a, events, b);
      MoveStaysInPlaces(g, a, m);
      forall y | y in seen' ensures Connected(g, start, y) && Circles(g, y, m.next) {
        if y == a { Begins(g, a, m); } else { Continues(g, y, a, m); }
      }
      Follows(g, start, a, m);
      x := LongWalk(g, start, m.next, events[1..], b, seen');
    }
  }

  ghost predicate Connected(g: CFG, a: Loc, b: Loc) {
    exists events :: Walks(g, a, events, b)
  }

  ghost predicate Circles(g: CFG, a: Loc, b: Loc) {
    exists events :: events != [] && Walks(g, a, events, b)
  }

  lemma FirstMove(g: CFG, a: Loc, events: seq<Event>, b: Loc) returns (m: GraphMove)
    requires events != [] && Walks(g, a, events, b)
    ensures m in GraphMoves(g, a) && Walks(g, m.next, events[1..], b)
  {
    m :| m in GraphMoves(g, a) && m.event == events[0] && Walks(g, m.next, events[1..], b);
  }

  lemma Begins(g: CFG, a: Loc, m: GraphMove)
    requires m in GraphMoves(g, a)
    ensures Circles(g, a, m.next)
  {
    WalksOne(g, a, m);
  }

  lemma Continues(g: CFG, y: Loc, a: Loc, m: GraphMove)
    requires Circles(g, y, a) && m in GraphMoves(g, a)
    ensures Circles(g, y, m.next)
  {
    hide Walks, GraphMoves;
    var p :| p != [] && Walks(g, y, p, a);
    WalksOne(g, a, m);
    WalksAppend(g, y, p, a, [m.event], m.next);
  }

  lemma Follows(g: CFG, start: Loc, a: Loc, m: GraphMove)
    requires Connected(g, start, a) && m in GraphMoves(g, a)
    ensures Connected(g, start, m.next)
  {
    hide Walks, GraphMoves;
    var p :| Walks(g, start, p, a);
    WalksOne(g, a, m);
    WalksAppend(g, start, p, a, [m.event], m.next);
  }

  // Going round a cycle n times takes at least n moves.
  lemma {:induction false} Rounds(g: CFG, a: Loc, round: seq<Event>, n: nat) returns (events: seq<Event>)
    requires round != [] && Walks(g, a, round, a)
    ensures n <= |events| && Walks(g, a, events, a)
    decreases n
  {
    hide Walks;
    if n == 0 {
      events := round;
    } else {
      var rest := Rounds(g, a, round, n - 1);
      WalksAppend(g, a, round, a, rest, a);
      events := round + rest;
    }
  }

  /****** The verdict ******/

  lemma ExitFinal(body: seq<Stmt>, trust: Instr -> bool)
    ensures Verdict.ExitIsFinal(GraphFor(body, trust)) && EdgesInRange(GraphFor(body, trust).blocks)
  {
    hide Build;
    var bs := Build(body, trust).blocks;
    forall b: nat, p: nat | b < |bs| ensures p in bs[b].preds <==> HasEdge(bs, p, b) {
      assert Listed(bs, b, p) == Edges(bs, p, b);
      if p < |bs| { CountsEdges(bs[p].succs, b); }
    }
  }

  lemma {:induction false} CountsEdges(succs: seq<Edge>, b: BlockId)
    ensures EdgesTo(succs, b) > 0 <==> exists e :: e in succs && e.to == b
    decreases |succs|
  {
    if succs != [] {
      CountsEdges(succs[..|succs| - 1], b);
      assert succs == succs[..|succs| - 1] + [succs[|succs| - 1]];
    }
  }

  lemma TrapTraps(body: seq<Stmt>, trust: Instr -> bool, b: BlockId) returns (events: seq<Event>, c: Kont)
    requires WellFormed(body) && Verdict.Trap(GraphFor(body, trust), b)
    ensures Trapped(trust, body, events, c)
  {
    hide Good, Entry, Erase, Finished, Tail, Executes, Walks, Build, Reach;
    var w, g := WorldFor(body, trust), GraphFor(body, trust);
    ExitFinal(body, trust);
    var root := Anchors(body, trust);
    events := WalkTo(g, ENTRY, b);
    var k := WalkExecutes(w, root, BEGINNING, events, Loc(b, 0));
    c := Erase(k);
    var e :| e in g.blocks[b].succs && Reach(g, Any, e.to, b);
    var first := AlongEdge(g, b, 0, e);
    var back := WalkTo(g, e.to, b);
    WalksAppend(g, Loc(b, 0), first, Loc(e.to, 0), back, Loc(b, 0));
    forall n: nat ensures GoesOnFor(trust, body, c, n) {
      var long := Rounds(g, Loc(b, 0), first + back, n);
      var k' := WalkExecutes(w, k, Loc(b, 0), long, Loc(b, 0));
    }
    if CanEnd(trust, body, c) {
      var rest :| Executes(trust, body, c, rest, Done);
      var k' := ExecutionWalks(w, k, Loc(b, 0), rest, Done);
      DoneIsEnd(w, k');
      PlaceWalk(g, Loc(b, 0), rest, END);
    }
  }

  lemma WalkTo(g: CFG, a: BlockId, b: BlockId) returns (events: seq<Event>)
    requires Reach(g, Any, a, b)
    ensures Walks(g, Loc(a, 0), events, Loc(b, 0))
  {
    var es :| IsWalk(g, Any, a, es, b);
    events := BlockWalk(g, a, es, b);
  }

  lemma TrappedIsTrap(body: seq<Stmt>, trust: Instr -> bool, events: seq<Event>, c: Kont) returns (b: BlockId)
    requires WellFormed(body) && Trapped(trust, body, events, c)
    ensures Verdict.Trap(GraphFor(body, trust), b)
  {
    hide Good, Entry, Erase, Finished, Tail, Executes, Walks, Build, Reach, Places, OnCycle;
    var w, g := WorldFor(body, trust), GraphFor(body, trust);
    ExitFinal(body, trust);
    var root := Anchors(body, trust);
    var k := ExecutionWalks(w, root, BEGINNING, events, c);
    var at := Entry(w, k).value;
    InPlaces(g, BEGINNING, events, at);
    var n := |Places(g, |g.blocks|)|;
    assert GoesOnFor(trust, body, c, n);
    var long, d :| n <= |long| && Executes(trust, body, c, long, d);
    var k' := ExecutionWalks(w, k, at, long, d);
    ConnectedSelf(g, at);
    var x := LongWalk(g, at, at, long, Entry(w, k').value, {});
    b := x.block;
    var to :| Walks(g, at, to, x);
    var round :| round != [] && Walks(g, x, round, x);
    WalksAppend(g, BEGINNING, events, at, to, x);
    PlaceWalk(g, BEGINNING, events + to, x);
    ReachIn(g, ENTRY, b);
    PlaceWalk(g, x, round, x);
    if Reach(g, Any, b, EXIT) {
      InPlaces(g, BEGINNING, events + to, x);
      ExitNoCycle(g);
      var out := LeaveFrom(g, x, round);
      WalksAppend(g, at, to, x, out, END);
      var k2 := WalkExecutes(w, k, at, to + out, END);
      DoneIsEnd(w, k2);
    }
  }

  lemma ConnectedSelf(g: CFG, a: Loc)
    ensures Connected(g, a, a)
  {
    assert Walks(g, a, [], a);
  }

  lemma ReachIn(g: CFG, a: BlockId, b: BlockId)
    requires Reach(g, Any, a, b)
    ensures b < |g.blocks|
  {
    var es :| IsWalk(g, Any, a, es, b);
    WalkStaysInRange(g, Any, a, es, b);
  }

  lemma {:induction false} InPlaces(g: CFG, a: Loc, events: seq<Event>, b: Loc)
    requires EdgesInRange(g.blocks) && 2 <= |g.blocks| && Walks(g, a, events, b) && a in Places(g, |g.blocks|)
    ensures b in Places(g, |g.blocks|)
    decreases events
  {
    hide GraphMoves, Places;
    if events != [] {
      var m := FirstMove(g, a, events, b);
      MoveStaysInPlaces(g, a, m);
      InPlaces(g, m.next, events[1..], b);
    }
  }

  lemma ExitNoCycle(g: CFG)
    requires Verdict.ExitIsFinal(g)
    ensures !OnCycle(g, g.exit)
  {}

  // From a place on a cycle that reaches the exit, the exit is walked to.
  lemma LeaveFrom(g: CFG, x: Loc, round: seq<Event>) returns (events: seq<Event>)
    requires EdgesInRange(g.blocks) && x in Places(g, |g.blocks|) && Reach(g, Any, x.block, EXIT) && x.block != EXIT
    ensures Walks(g, x, events, END)
  {
    hide GraphMoves, Walks;
    var es: seq<Edge> :| IsWalk(g, Any, x.block, es, EXIT);
    var first := AlongEdge(g, x.block, x.index, es[0]);
    var rest := BlockWalk(g, es[0].to, es[1..], EXIT);
    WalksAppend(g, x, first, Loc(es[0].to, 0), rest, END);
    events := first + rest;
  }

  // UnresolvedLoop on the built graph: some execution reaches a point from which it can run
  // on without end but never finish.
  lemma VerdictOnExecutions(body: seq<Stmt>, trust: Instr -> bool)
    requires WellFormed(body)
    ensures (exists b :: Verdict.Trap(GraphFor(body, trust), b)) <==>
      (exists events, c :: Trapped(trust, body, events, c))
  {
    hide Trapped, Verdict.Trap, Build;
    if b :| Verdict.Trap(GraphFor(body, trust), b) {
      var events, c := TrapTraps(body, trust, b);
    }
    if events, c :| Trapped(trust, body, events, c) {
      var b := TrappedIsTrap(body, trust, events, c);
    }
  }
}
