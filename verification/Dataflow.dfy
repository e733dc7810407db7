/**
 The forward dataflow solver: a worklist that computes the least solution.
 */
module Dataflow {
  import opened Graph

  // What a client supplies: the lattice's bottom and join, the state at the entry, and the
  // effect of a block on the state before it.
  datatype Problem<!S> = Problem(bottom: S, initial: S, transfer: (BlockId, S) -> S, join: (S, S) -> S)

  /****** Join semilattices of finite height ******/

  ghost predicate Leq<S>(p: Problem<S>, x: S, y: S) {
    p.join(x, y) == y
  }

  ghost predicate Semilattice<S(!new)>(p: Problem<S>) {
    && (forall x :: p.join(x, x) == x)
    && (forall x, y :: p.join(x, y) == p.join(y, x))
    && (forall x, y, z :: p.join(p.join(x, y), z) == p.join(x, p.join(y, z)))
    && (forall x :: Leq(p, p.bottom, x))
  }

  ghost predicate Monotone<S(!new)>(p: Problem<S>) {
    forall b, x, y :: Leq(p, x, y) ==> Leq(p, p.transfer(b, x), p.transfer(b, y))
  }

  // Ranks bound how often a state can grow.
  ghost predicate Ranked<S(!new)>(p: Problem<S>, rank: S -> nat, height: nat) {
    && (forall x :: rank(x) <= height)
    && (forall x, y :: Leq(p, x, y) && x != y ==> rank(x) < rank(y))
  }

  lemma LeqRefl<S(!new)>(p: Problem<S>, x: S)
    requires Semilattice(p)
    ensures Leq(p, x, x)
  {}

  lemma LeqTrans<S(!new)>(p: Problem<S>, x: S, y: S, z: S)
    requires Semilattice(p) && Leq(p, x, y) && Leq(p, y, z)
    ensures Leq(p, x, z)
  {
    assert p.join(p.join(x, y), z) == p.join(x, p.join(y, z));
  }

  lemma JoinUpper<S(!new)>(p: Problem<S>, x: S, y: S)
    requires Semilattice(p)
    ensures Leq(p, x, p.join(x, y)) && Leq(p, y, p.join(x, y))
  {
    assert p.join(p.join(x, x), y) == p.join(x, p.join(x, y));
    assert p.join(p.join(y, y), x) == p.join(y, p.join(y, x));
    assert p.join(x, y) == p.join(y, x);
  }

  lemma JoinLeast<S(!new)>(p: Problem<S>, x: S, y: S, z: S)
    requires Semilattice(p) && Leq(p, x, z) && Leq(p, y, z)
    ensures Leq(p, p.join(x, y), z)
  {
    assert p.join(p.join(x, y), z) == p.join(x, p.join(y, z));
  }

  /****** The equations ******/

  ghost predicate ListsInRange(blocks: seq<BasicBlock>) {
    forall b, q :: 0 <= b < |blocks| && q in blocks[b].preds ==> q < |blocks|
  }

  // The join of the states after these predecessors; bottom if there are none.
  function JoinOf<S>(p: Problem<S>, out: map<BlockId, S>, preds: seq<BlockId>): S
    requires forall q :: q in preds ==> q in out
  {
    if preds == [] then p.bottom
    else if |preds| == 1 then out[preds[0]]
    else p.join(JoinOf(p, out, preds[..|preds| - 1]), out[preds[|preds| - 1]])
  }

  // The state before block b.
  function In<S>(g: CFG, p: Problem<S>, out: map<BlockId, S>, b: BlockId): S
    requires b < |g.blocks| && forall q :: q in g.blocks[b].preds ==> q in out
  {
    if b == g.entry then p.initial else JoinOf(p, out, g.blocks[b].preds)
  }

  ghost predicate Total<S>(g: CFG, out: map<BlockId, S>) {
    ListsInRange(g.blocks) && forall b: nat :: b in out <==> b < |g.blocks|
  }

  ghost predicate Solved<S>(g: CFG, p: Problem<S>, out: map<BlockId, S>, b: BlockId)
    requires Total(g, out) && b < |g.blocks|
  {
    out[b] == p.transfer(b, In(g, p, out, b))
  }

  // A solution, or anything above one.
  ghost predicate Closed<S>(g: CFG, p: Problem<S>, sol: map<BlockId, S>) {
    Total(g, sol) &&
    forall b: nat :: b < |g.blocks| && Reach(g, Any, g.entry, b) ==> Leq(p, p.transfer(b, In(g, p, sol, b)), sol[b])
  }

  lemma {:induction false} JoinOfMonotone<S(!new)>(p: Problem<S>, a: map<BlockId, S>, b: map<BlockId, S>,
      preds: seq<BlockId>)
    requires Semilattice(p)
    requires forall q :: q in preds ==> q in a && q in b && Leq(p, a[q], b[q])
    ensures Leq(p, JoinOf(p, a, preds), JoinOf(p, b, preds))
  {
    hide Leq, Semilattice;
    if |preds| <= 1 {
      LeqRefl(p, p.bottom);
    } else {
      var i := |preds| - 1;
      JoinOfMonotone(p, a, b, preds[..i]);
      var x, y := JoinOf(p, a, preds[..i]), JoinOf(p, b, preds[..i]);
      JoinUpper(p, y, b[preds[i]]);
      LeqTrans(p, x, y, p.join(y, b[preds[i]]));
      LeqTrans(p, a[preds[i]], b[preds[i]], p.join(y, b[preds[i]]));
      JoinLeast(p, x, a[preds[i]], p.join(y, b[preds[i]]));
    }
  }

  lemma {:induction false} JoinOfAbove<S(!new)>(p: Problem<S>, out: map<BlockId, S>, preds: seq<BlockId>, q: BlockId)
    requires Semilattice(p) && (forall r :: r in preds ==> r in out) && q in preds
    ensures Leq(p, out[q], JoinOf(p, out, preds))
  {
    hide Leq, Semilattice;
    var i := |preds| - 1;
    if |preds| == 1 {
      LeqRefl(p, out[q]);
    } else {
      var x := JoinOf(p, out, preds[..i]);
      JoinUpper(p, x, out[preds[i]]);
      if q != preds[i] {
        assert q in preds[..i];
        JoinOfAbove(p, out, preds[..i], q);
        LeqTrans(p, out[q], x, p.join(x, out[preds[i]]));
      }
    }
  }

  lemma InMonotone<S(!new)>(g: CFG, p: Problem<S>, a: map<BlockId, S>, b: map<BlockId, S>, x: BlockId)
    requires Semilattice(p) && x < |g.blocks|
    requires forall q :: q in g.blocks[x].preds ==> q in a && q in b && Leq(p, a[q], b[q])
    ensures Leq(p, In(g, p, a, x), In(g, p, b, x))
  {
    if x == g.entry { LeqRefl(p, p.initial); } else { JoinOfMonotone(p, a, b, g.blocks[x].preds); }
  }

  lemma {:induction false} JoinOfSame<S>(p: Problem<S>, a: map<BlockId, S>, b: map<BlockId, S>, preds: seq<BlockId>)
    requires forall q :: q in preds ==> q in a && q in b && a[q] == b[q]
    ensures JoinOf(p, a, preds) == JoinOf(p, b, preds)
  {
    if |preds| > 1 { JoinOfSame(p, a, b, preds[..|preds| - 1]); }
  }

  /****** The worklist ******/

  // Blocks never processed, and growth still possible, over the first n blocks.
  ghost function Slack<S(!new)>(rank: S -> nat, height: nat, out: map<BlockId, S>, done: set<BlockId>, n: nat): nat
    requires (forall x :: rank(x) <= height) && forall b: nat :: b < n ==> b in out
  {
    if n == 0 then 0
    else Slack(rank, height, out, done, n - 1) + (height - rank(out[n - 1])) + if n - 1 in done then 0 else 1
  }

  lemma {:induction false} SlackShrinks<S(!new)>(rank: S -> nat, height: nat, a: map<BlockId, S>, b: map<BlockId, S>,
      done: set<BlockId>, id: BlockId, n: nat)
    requires forall x :: rank(x) <= height
    requires forall x: nat :: x < n ==> x in a && x in b && (x != id ==> a[x] == b[x])
    requires id < n ==> rank(a[id]) <= rank(b[id])
    ensures Slack(rank, height, b, done + {id}, n) <= Slack(rank, height, a, done, n)
    ensures id < n && (id !in done || rank(a[id]) < rank(b[id])) ==>
      Slack(rank, height, b, done + {id}, n) < Slack(rank, height, a, done, n)
  {
    if n > 0 { SlackShrinks(rank, height, a, b, done, id, n - 1); }
  }

  // Facts the worklist keeps: done are the blocks processed so far, queue those to do.
  ghost predicate Progress<S(!new)>(g: CFG, p: Problem<S>, out: map<BlockId, S>, done: set<BlockId>,
      queue: seq<BlockId>) {
    && Total(g, out)
    && (forall b :: b in queue || b in done ==> b < |g.blocks| && Reach(g, Any, g.entry, b))
    && (forall b: nat :: b < |g.blocks| && b !in done ==> out[b] == p.bottom)
    && (forall b :: b in done ==> Leq(p, out[b], p.transfer(b, In(g, p, out, b))))
    && (forall b :: b in done && b !in queue ==> Solved(g, p, out, b))
    && (forall sol :: Closed(g, p, sol) ==> forall b :: b in out ==> Leq(p, out[b], sol[b]))
  }

  // Every block to be processed is queued: the entry, and what follows a processed block.
  ghost predicate Frontier(g: CFG, done: set<BlockId>, queue: seq<BlockId>) {
    && (g.entry in queue || g.entry in done)
    && (forall b, e :: b in done && b < |g.blocks| && e in g.blocks[b].succs ==> e.to in queue || e.to in done)
  }

  lemma ListsAreInRange(g: CFG)
    requires EdgesInRange(g.blocks) && Mirrored(g.blocks)
    ensures ListsInRange(g.blocks)
  {
    forall b, q | 0 <= b < |g.blocks| && q in g.blocks[b].preds ensures q < |g.blocks| {
      assert HasEdge(g.blocks, q, b);
    }
  }

  lemma Begins<S(!new)>(g: CFG, p: Problem<S>, out: map<BlockId, S>, queue: seq<BlockId>)
    requires Semilattice(p) && Total(g, out) && g.entry < |g.blocks| && queue == [g.entry]
    requires forall b :: b in out ==> out[b] == p.bottom
    ensures Progress(g, p, out, {}, queue)
  {
    ReachRefl(g, Any, g.entry);
  }

  // Processing a block makes its state grow, stay below every solution, and satisfy its
  // equation; no other settled block is disturbed unless it is queued again.
  lemma Processed<S(!new)>(g: CFG, p: Problem<S>, out: map<BlockId, S>, done: set<BlockId>, queue: seq<BlockId>,
      id: BlockId, next: S, rest: seq<BlockId>)
    requires EdgesInRange(g.blocks) && Mirrored(g.blocks) && Semilattice(p) && Monotone(p)
    requires Progress(g, p, out, done, queue) && id in queue && next == p.transfer(id, In(g, p, out, id))
    requires forall b :: b in rest <==> (b in queue && b != id) || HasEdge(g.blocks, id, b)
    ensures Leq(p, out[id], next)
    ensures Progress(g, p, out[id := next], done + {id}, rest)
  {
    hide Leq, Semilattice, Monotone, EdgesInRange, Reach;
    var out' := out[id := next];
    Grows(g, p, out, done, queue, id, next);
    forall b | b in rest ensures b < |g.blocks| && Reach(g, Any, g.entry, b) {
      if HasEdge(g.blocks, id, b) { EdgeReaches(g, id, b); }
    }
    forall b | b in done + {id} ensures Leq(p, out'[b], p.transfer(b, In(g, p, out', b))) {
      StaysBelow(g, p, out, done, queue, id, next, b);
    }
    forall b | b in done + {id} && b !in rest ensures Solved(g, p, out', b) {
      StaysSolved(g, p, out, done, queue, id, next, b);
    }
    forall sol, b | Closed(g, p, sol) && b in out' ensures Leq(p, out'[b], sol[b]) {
      if b == id { BelowSolution(g, p, out, id, sol); }
    }
  }

  lemma EdgeReaches(g: CFG, id: BlockId, b: BlockId)
    requires EdgesInRange(g.blocks) && Reach(g, Any, g.entry, id) && HasEdge(g.blocks, id, b)
    ensures b < |g.blocks| && Reach(g, Any, g.entry, b)
  {
    var e :| e in g.blocks[id].succs && e.to == b;
    ReachEdge(g, Any, id, e);
    ReachTrans(g, Any, g.entry, id, b);
  }

  lemma Grows<S(!new)>(g: CFG, p: Problem<S>, out: map<BlockId, S>, done: set<BlockId>, queue: seq<BlockId>,
      id: BlockId, next: S)
    requires Semilattice(p) && Progress(g, p, out, done, queue) && id in queue
      && next == p.transfer(id, In(g, p, out, id))
    ensures Leq(p, out[id], next)
  {
    if id !in done { assert out[id] == p.bottom; }
  }

  lemma StaysBelow<S(!new)>(g: CFG, p: Problem<S>, out: map<BlockId, S>, done: set<BlockId>, queue: seq<BlockId>,
      id: BlockId, next: S, b: BlockId)
    requires Semilattice(p) && Monotone(p) && Progress(g, p, out, done, queue) && id < |g.blocks| && b in done + {id}
    requires b < |g.blocks| && next == p.transfer(id, In(g, p, out, id)) && Leq(p, out[id], next)
    ensures Leq(p, out[id := next][b], p.transfer(b, In(g, p, out[id := next], b)))
  {
    hide Semilattice;
    var out' := out[id := next];
    forall q | q in g.blocks[b].preds ensures q in out && q in out' && Leq(p, out[q], out'[q]) { LeqRefl(p, out[q]); }
    InMonotone(g, p, out, out', b);
    assert Leq(p, p.transfer(b, In(g, p, out, b)), p.transfer(b, In(g, p, out', b)));
    if b != id { LeqTrans(p, out[b], p.transfer(b, In(g, p, out, b)), p.transfer(b, In(g, p, out', b))); }
  }

  lemma StaysSolved<S(!new)>(g: CFG, p: Problem<S>, out: map<BlockId, S>, done: set<BlockId>, queue: seq<BlockId>,
      id: BlockId, next: S, b: BlockId)
    requires Mirrored(g.blocks) && Progress(g, p, out, done, queue) && id < |g.blocks| && b < |g.blocks|
    requires next == p.transfer(id, In(g, p, out, id)) && !HasEdge(g.blocks, id, b)
    requires b == id || (b in done && b !in queue)
    ensures b in out && Solved(g, p, out[id := next], b)
  {
    hide HasEdge;
    var out' := out[id := next];
    assert id !in g.blocks[b].preds;
    if b != g.entry { JoinOfSame(p, out, out', g.blocks[b].preds); }
    assert In(g, p, out, b) == In(g, p, out', b);
  }

  lemma BelowSolution<S(!new)>(g: CFG, p: Problem<S>, out: map<BlockId, S>, id: BlockId, sol: map<BlockId, S>)
    requires Semilattice(p) && Monotone(p) && Total(g, out) && id < |g.blocks| && Reach(g, Any, g.entry, id)
    requires Closed(g, p, sol) && forall b :: b in out ==> Leq(p, out[b], sol[b])
    ensures Leq(p, p.transfer(id, In(g, p, out, id)), sol[id])
  {
    InMonotone(g, p, out, sol, id);
    LeqTrans(p, p.transfer(id, In(g, p, out, id)), p.transfer(id, In(g, p, sol, id)), sol[id]);
  }

  // A queue that has run empty leaves every reachable block processed and settled.
  lemma Finished<S(!new)>(g: CFG, p: Problem<S>, out: map<BlockId, S>, done: set<BlockId>)
    requires EdgesInRange(g.blocks) && g.entry < |g.blocks| && Progress(g, p, out, done, []) && Frontier(g, done, [])
    ensures forall b :: Reach(g, Any, g.entry, b) ==> b in done
  {
    hide Progress;
    forall b | Reach(g, Any, g.entry, b) ensures b in done {
      var es :| IsWalk(g, Any, g.entry, es, b);
      ClosedContainsWalk(g, Any, done, g.entry, es, b);
    }
  }

  // Solve: unreachable blocks stay at bottom, reachable ones get the least solution of
  // their equations.
  method Solve<S(==, !new)>(g: CFG, p: Problem<S>, ghost rank: S -> nat, ghost height: nat)
    returns (out: map<BlockId, S>)
    requires EdgesInRange(g.blocks) && Mirrored(g.blocks) && g.entry < |g.blocks|
    requires Semilattice(p) && Monotone(p) && Ranked(p, rank, height)
    ensures Total(g, out)
    ensures forall b: nat :: b < |g.blocks| && !Reach(g, Any, g.entry, b) ==> out[b] == p.bottom
    ensures forall b: nat :: b < |g.blocks| && Reach(g, Any, g.entry, b) ==> Solved(g, p, out, b)
    ensures forall sol :: Closed(g, p, sol) ==> forall b :: b in out ==> Leq(p, out[b], sol[b])
  {
    hide Leq, Semilattice, Monotone, Ranked, Reach, EdgesInRange, Mirrored, Progress, Slack, HasEdge, Frontier, In,
      Solved, Closed, Distinct;
    var n := |g.blocks|;
    ListsAreInRange(g);
    out := map[];
    for i := 0 to n
      invariant forall b: nat :: (b in out <==> b < i) && (b in out ==> out[b] == p.bottom)
    {
      out := out[i := p.bottom];
    }
    var processed := new bool[n](_ => false);
    var inQueue := new bool[n](_ => false);
    inQueue[g.entry] := true;
    var queue: seq<BlockId> := [g.entry];
    ghost var done: set<BlockId> := {};
    Begins(g, p, out, queue);
    RanksBounded(p, rank, height);
    FrontierBegins(g, done, queue);
    while queue != []
      invariant Total(g, out) && Progress(g, p, out, done, queue)
      invariant Frontier(g, done, queue)
      invariant forall b :: b in queue || b in done ==> b < n
      invariant forall b: nat :: b < n ==> (processed[b] <==> b in done) && (inQueue[b] <==> b in queue)
      invariant Distinct(queue)
      decreases Slack(rank, height, out, done, n), |queue|
    {
      ghost var queue0, out0, done0 := queue, out, done;
      var id := queue[0];
      assert queue == [id] + queue[1..] && id in queue;
      queue := queue[1..];
      inQueue[id] := false;
      Popped(queue0);
      var input := Before(g, p, out, id);
      var next := p.transfer(id, input);
      var changed := !processed[id] || next != out[id];
      processed[id] := true;
      done := done + {id};
      if changed {
        out := out[id := next];
        queue := PushFollowers(g, id, inQueue, queue);
        FrontierMoves(g, done0, queue0, id, queue);
        Processed(g, p, out0, done0, queue0, id, next, queue);
        GrowthRanked(p, rank, height, out0[id], next);
        SlackShrinks(rank, height, out0, out, done0, id, n);
      } else {
        SettledAgain(g, p, out, done0, queue0, id, queue);
        assert done == done0 && |queue| < |queue0|;
        FrontierStays(g, done0, queue0, id, queue);
      }
    }
    Finished(g, p, out, done);
    Conclude(g, p, out, done);
  }

  predicate Distinct(queue: seq<BlockId>) {
    forall i, j :: 0 <= i < j < |queue| ==> queue[i] != queue[j]
  }

  lemma Popped(queue: seq<BlockId>)
    requires Distinct(queue) && queue != []
    ensures Distinct(queue[1..]) && forall b :: b in queue[1..] <==> b in queue && b != queue[0]
  {
    assert queue == [queue[0]] + queue[1..];
  }

  // Queues what follows a block, unless it is queued already.
  method PushFollowers(g: CFG, id: BlockId, inQueue: array<bool>, queue: seq<BlockId>) returns (queue': seq<BlockId>)
    requires EdgesInRange(g.blocks) && id < |g.blocks| == inQueue.Length && Distinct(queue)
    requires (forall b :: b in queue ==> b < |g.blocks|) && forall b: nat :: b < |g.blocks| ==>
      (inQueue[b] <==> b in queue)
    modifies inQueue
    ensures Distinct(queue') && forall b :: b in queue' <==> b in queue || HasEdge(g.blocks, id, b)
    ensures (forall b :: b in queue' ==> b < |g.blocks|) && forall b: nat :: b < |g.blocks| ==>
      (inQueue[b] <==> b in queue')
  {
    queue' := queue;
    var succs := g.blocks[id].succs;
    for i := 0 to |succs|
      invariant Distinct(queue') && forall b :: b in queue' ==> b < |g.blocks|
      invariant forall b :: b in queue' <==> b in queue || exists k :: 0 <= k < i && succs[k].to == b
      invariant forall b: nat :: b < |g.blocks| ==> (inQueue[b] <==> b in queue')
    {
      var t := succs[i].to;
      if !inQueue[t] {
        inQueue[t] := true;
        queue' := queue' + [t];
      }
    }
    Followers(g, id);
  }

  lemma FrontierBegins(g: CFG, done: set<BlockId>, queue: seq<BlockId>)
    requires done == {} && queue == [g.entry]
    ensures Frontier(g, done, queue) && Distinct(queue)
  {}

  lemma FrontierMoves(g: CFG, done: set<BlockId>, queue: seq<BlockId>, id: BlockId, rest: seq<BlockId>)
    requires Frontier(g, done, queue) && id < |g.blocks|
    requires forall b :: b in rest <==> (b in queue && b != id) || HasEdge(g.blocks, id, b)
    ensures Frontier(g, done + {id}, rest)
  {
    assert forall e :: e in g.blocks[id].succs ==> HasEdge(g.blocks, id, e.to);
  }

  lemma FrontierStays(g: CFG, done: set<BlockId>, queue: seq<BlockId>, id: BlockId, rest: seq<BlockId>)
    requires Frontier(g, done, queue) && id in done
    requires forall b :: b in rest <==> b in queue && b != id
    ensures Frontier(g, done + {id}, rest)
  {}

  lemma Conclude<S(!new)>(g: CFG, p: Problem<S>, out: map<BlockId, S>, done: set<BlockId>)
    requires Total(g, out) && Progress(g, p, out, done, []) && forall b :: Reach(g, Any, g.entry, b) ==> b in done
    ensures forall b: nat :: b < |g.blocks| && !Reach(g, Any, g.entry, b) ==> out[b] == p.bottom
    ensures forall b: nat :: b < |g.blocks| && Reach(g, Any, g.entry, b) ==> Solved(g, p, out, b)
    ensures forall sol :: Closed(g, p, sol) ==> forall b :: b in out ==> Leq(p, out[b], sol[b])
  {
    hide Leq, Reach, Solved, Closed;
  }

  lemma Followers(g: CFG, id: BlockId)
    requires id < |g.blocks|
    ensures forall b: nat :: HasEdge(g.blocks, id, b) <==>
      exists k :: 0 <= k < |g.blocks[id].succs| && g.blocks[id].succs[k].to == b
  {
    forall b: nat ensures HasEdge(g.blocks, id, b) <==>
      exists k :: 0 <= k < |g.blocks[id].succs| && g.blocks[id].succs[k].to == b {
      if k :| 0 <= k < |g.blocks[id].succs| && g.blocks[id].succs[k].to == b {
        assert g.blocks[id].succs[k] in g.blocks[id].succs;
      }
    }
  }

  lemma RanksBounded<S(!new)>(p: Problem<S>, rank: S -> nat, height: nat)
    requires Ranked(p, rank, height)
    ensures forall x :: rank(x) <= height
  {}

  lemma GrowthRanked<S(!new)>(p: Problem<S>, rank: S -> nat, height: nat, x: S, y: S)
    requires Ranked(p, rank, height) && Leq(p, x, y)
    ensures rank(x) <= rank(y) && (x != y ==> rank(x) < rank(y)) && forall z :: rank(z) <= height
  {}

  // A block whose state did not change satisfies its equation already.
  lemma SettledAgain<S(!new)>(g: CFG, p: Problem<S>, out: map<BlockId, S>, done: set<BlockId>, queue: seq<BlockId>,
      id: BlockId, rest: seq<BlockId>)
    requires Progress(g, p, out, done, queue) && id in done && id < |g.blocks|
      && p.transfer(id, In(g, p, out, id)) == out[id]
    requires forall b :: b in rest <==> b in queue && b != id
    ensures Progress(g, p, out, done + {id}, rest)
  {
    hide Leq, Reach;
    assert done + {id} == done;
  }

  // The state before a block, joined over its predecessors one by one.
  method Before<S>(g: CFG, p: Problem<S>, out: map<BlockId, S>, id: BlockId) returns (input: S)
    requires Total(g, out) && id < |g.blocks|
    ensures input == In(g, p, out, id)
  {
    if id == g.entry { return p.initial; }
    var preds := g.blocks[id].preds;
    if |preds| == 0 { return p.bottom; }
    assert forall q :: q in preds ==> q in out;
    assert preds[..1][0] == preds[0];
    input := out[preds[0]];
    for i := 1 to |preds|
      invariant input == JoinOf(p, out, preds[..i])
    {
      assert preds[..i + 1][..i] == preds[..i];
      input := p.join(input, out[preds[i]]);
    }
    assert preds[..|preds|] == preds;
  }
}
