/**
 The stop-capability analysis: where has a worker certainly or possibly met a way to stop?
 */
module Lattices {
  import opened Graph
  import opened Dataflow

  datatype StopCapability = StopNone | StopAvailable | StopProvenConsumed

  function Level(c: StopCapability): (r: nat)
    ensures r <= 2
  {
    match c case StopNone => 0 case StopAvailable => 1 case StopProvenConsumed => 2
  }

  function JoinStop(a: StopCapability, b: StopCapability): StopCapability {
    if Level(b) > Level(a) then b else a
  }

  // A block that leaves the function by a trusted stop, a return or a panic.
  predicate AtPoint(g: CFG, b: BlockId) {
    b < |g.blocks|
      && exists e :: e in g.blocks[b].succs && (e.kind == TrustedStop || e.kind == Return || e.kind == Panic)
  }

  function PointTransfer<S>(atPoint: BlockId -> bool, resolved: S): (BlockId, S) -> S {
    (b: BlockId, before: S) => if atPoint(b) then resolved else before
  }

  // Walks that do not come back to the entry.
  function Onward(g: CFG): Edge -> bool {
    (e: Edge) => e.to != g.entry
  }

  // Some such walk from the entry to b meets a stop point.
  ghost predicate MeetsPoint(g: CFG, b: BlockId) {
    exists x :: AtPoint(g, x) && Reach(g, Onward(g), g.entry, x) && Reach(g, Onward(g), x, b)
  }

  // Spelled out: an edge of one of the three kinds leaves a block on the way from the entry.
  ghost predicate PassesStop(g: CFG, b: BlockId) {
    exists x: BlockId, e :: x < |g.blocks| && e in g.blocks[x].succs && e.kind in {Return, Panic, TrustedStop}
      && Reach(g, Onward(g), g.entry, x) && Reach(g, Onward(g), x, b)
  }

  lemma MeetsIsPasses(g: CFG, b: BlockId)
    ensures MeetsPoint(g, b) <==> PassesStop(g, b)
  {
    hide Reach;
    if MeetsPoint(g, b) {
      var x: BlockId :| AtPoint(g, x) && Reach(g, Onward(g), g.entry, x) && Reach(g, Onward(g), x, b);
      var e :| e in g.blocks[x].succs && (e.kind == TrustedStop || e.kind == Return || e.kind == Panic);
      assert e.kind in {Return, Panic, TrustedStop};
    }
    if PassesStop(g, b) {
      var x: BlockId, e :| x < |g.blocks| && e in g.blocks[x].succs && e.kind in {Return, Panic, TrustedStop}
        && Reach(g, Onward(g), g.entry, x) && Reach(g, Onward(g), x, b);
      assert AtPoint(g, x);
    }
  }

  const STOP_JOIN := (a: StopCapability, b: StopCapability) => JoinStop(a, b)

  function StopProblem(g: CFG): Problem<StopCapability> {
    Problem(StopNone, StopAvailable, PointTransfer((b: BlockId) => AtPoint(g, b), StopProvenConsumed), STOP_JOIN)
  }

  lemma StopLattice(g: CFG)
    ensures Semilattice(StopProblem(g)) && Monotone(StopProblem(g)) && Ranked(StopProblem(g), c => Level(c), 2)
    ensures forall x, y :: Leq(StopProblem(g), x, y) <==> Level(x) <= Level(y)
  {}

  /****** Reaching a block without coming back to the entry ******/

  lemma {:induction false} CutWalk(g: CFG, a: BlockId, es: seq<Edge>, b: BlockId)
    requires IsWalk(g, Any, a, es, b) && a < |g.blocks| && g.entry < |g.blocks|
    ensures Reach(g, Onward(g), a, b) || Reach(g, Onward(g), g.entry, b)
    decreases es
  {
    hide Reach;
    if es == [] {
      ReachRefl(g, Onward(g), a);
    } else {
      WalkStaysInRange(g, Any, es[0].to, es[1..], b);
      CutWalk(g, es[0].to, es[1..], b);
      if es[0].to != g.entry && !Reach(g, Onward(g), g.entry, b) {
        ReachEdge(g, Onward(g), a, es[0]);
        ReachTrans(g, Onward(g), a, es[0].to, b);
      }
    }
  }

  lemma OnwardReach(g: CFG, b: BlockId)
    requires g.entry < |g.blocks| && Reach(g, Any, g.entry, b)
    ensures Reach(g, Onward(g), g.entry, b)
  {
    var es :| IsWalk(g, Any, g.entry, es, b);
    CutWalk(g, g.entry, es, b);
  }

  /****** No block is credited without a walk that earns it ******/

  ghost function Earned(g: CFG, b: BlockId): StopCapability {
    if MeetsPoint(g, b) then StopProvenConsumed else if Reach(g, Any, g.entry, b) then StopAvailable else StopNone
  }

  ghost function EarnedMap(g: CFG): map<BlockId, StopCapability> {
    map b | b in Below(|g.blocks|) :: Earned(g, b)
  }

  lemma EarnedClosed(g: CFG)
    requires EdgesInRange(g.blocks) && Mirrored(g.blocks) && g.entry < |g.blocks|
    ensures Closed(g, StopProblem(g), EarnedMap(g))
  {
    hide Reach, EdgesInRange, MeetsPoint, Semilattice, Monotone, Ranked, Leq, In, AtPoint;
    ListsAreInRange(g);
    var p, sol := StopProblem(g), EarnedMap(g);
    StopLattice(g);
    forall b: nat | b < |g.blocks| && Reach(g, Any, g.entry, b)
      ensures Leq(p, p.transfer(b, In(g, p, sol, b)), sol[b]) {
      if AtPoint(g, b) {
        Earns(g, b);
      } else {
        EarnedIn(g, b);
      }
    }
  }

  lemma Earns(g: CFG, b: BlockId)
    requires g.entry < |g.blocks| && b < |g.blocks| && Reach(g, Any, g.entry, b) && AtPoint(g, b)
    ensures MeetsPoint(g, b)
  {
    OnwardReach(g, b);
    ReachRefl(g, Onward(g), b);
  }

  lemma EarnedIn(g: CFG, b: BlockId)
    requires EdgesInRange(g.blocks) && Mirrored(g.blocks) && ListsInRange(g.blocks) && g.entry < |g.blocks|
      && b < |g.blocks| && Reach(g, Any, g.entry, b)
    ensures Level(In(g, StopProblem(g), EarnedMap(g), b)) <= Level(EarnedMap(g)[b])
  {
    hide Reach, EdgesInRange, MeetsPoint, Mirrored;
    if b != g.entry {
      var preds := g.blocks[b].preds;
      forall q | q in preds ensures q < |g.blocks| && Level(Earned(g, q)) <= Level(Earned(g, b)) {
        Passes(g, q, b);
      }
      JoinBelow(g, EarnedMap(g), preds, Level(Earned(g, b)));
    }
  }

  lemma Passes(g: CFG, q: BlockId, b: BlockId)
    requires EdgesInRange(g.blocks) && Mirrored(g.blocks) && b < |g.blocks| && q in g.blocks[b].preds && b != g.entry
    ensures MeetsPoint(g, q) ==> MeetsPoint(g, b)
    ensures q < |g.blocks|
  {
    hide Reach, AtPoint;
    assert HasEdge(g.blocks, q, b);
    var e :| e in g.blocks[q].succs && e.to == b;
    if MeetsPoint(g, q) {
      var x :| AtPoint(g, x) && Reach(g, Onward(g), g.entry, x) && Reach(g, Onward(g), x, q);
      ReachEdge(g, Onward(g), q, e);
      ReachTrans(g, Onward(g), x, q, b);
    }
  }

  lemma {:induction false} JoinBelow(g: CFG, out: map<BlockId, StopCapability>, preds: seq<BlockId>, top: nat)
    requires forall q :: q in preds ==> q in out && Level(out[q]) <= top
    ensures Level(JoinOf(StopProblem(g), out, preds)) <= top
  {
    if |preds| > 1 { JoinBelow(g, out, preds[..|preds| - 1], top); }
  }

  /****** Every walk that earns it is credited ******/

  ghost predicate Solution(g: CFG, out: map<BlockId, StopCapability>) {
    && Total(g, out) && EdgesInRange(g.blocks) && Mirrored(g.blocks) && g.entry < |g.blocks|
    && forall b: nat :: b < |g.blocks| && Reach(g, Any, g.entry, b) ==> Solved(g, StopProblem(g), out, b)
  }

  // States never sink along an edge that does not lead to the entry.
  lemma Rises(g: CFG, out: map<BlockId, StopCapability>, a: BlockId, e: Edge)
    requires Solution(g, out) && a < |g.blocks| && Reach(g, Any, g.entry, a) && e in g.blocks[a].succs
      && e.to != g.entry
    ensures e.to < |g.blocks| && Reach(g, Any, g.entry, e.to) && Level(out[a]) <= Level(out[e.to])
  {
    hide Reach, Semilattice, Monotone, Ranked, Leq, AtPoint;
    assert e.to < |g.blocks| by { var j :| 0 <= j < |g.blocks[a].succs| && g.blocks[a].succs[j] == e; }
    ReachEdge(g, Any, a, e);
    ReachTrans(g, Any, g.entry, a, e.to);
    assert HasEdge(g.blocks, a, e.to);
    StopLattice(g);
    JoinOfAbove(StopProblem(g), out, g.blocks[e.to].preds, a);
    assert Solved(g, StopProblem(g), out, e.to);
  }

  lemma {:induction false} RisesAlong(g: CFG, out: map<BlockId, StopCapability>, a: BlockId, es: seq<Edge>, b: BlockId)
    requires Solution(g, out) && Reach(g, Any, g.entry, a) && IsWalk(g, Onward(g), a, es, b)
    ensures b in out && a in out && Level(out[a]) <= Level(out[b])
    decreases es
  {
    hide Reach, Solution;
    WalkStaysInRange(g, Onward(g), a, es, b);
    assert Total(g, out) by { SolutionTotal(g, out); }
    if es != [] {
      Rises(g, out, a, es[0]);
      RisesAlong(g, out, es[0].to, es[1..], b);
    }
  }

  lemma SolutionTotal(g: CFG, out: map<BlockId, StopCapability>)
    requires Solution(g, out)
    ensures Total(g, out)
  {}

  lemma Credited(g: CFG, out: map<BlockId, StopCapability>, b: BlockId)
    requires Solution(g, out) && Reach(g, Any, g.entry, b)
    ensures b in out && Level(Earned(g, b)) <= Level(out[b])
  {
    hide In;
    var p := StopProblem(g);
    ReachRefl(g, Any, g.entry);
    assert Solved(g, p, out, g.entry);
    assert Level(out[g.entry]) >= 1 by { assert In(g, p, out, g.entry) == StopAvailable by { EntryIn(g, out); } }
    OnwardReach(g, b);
    var es :| IsWalk(g, Onward(g), g.entry, es, b);
    RisesAlong(g, out, g.entry, es, b);
    if MeetsPoint(g, b) {
      var x :| AtPoint(g, x) && Reach(g, Onward(g), g.entry, x) && Reach(g, Onward(g), x, b);
      OnwardIsAny(g, x);
      assert Solved(g, p, out, x);
      var fs :| IsWalk(g, Onward(g), x, fs, b);
      RisesAlong(g, out, x, fs, b);
    }
  }

  lemma EntryIn(g: CFG, out: map<BlockId, StopCapability>)
    requires Total(g, out) && g.entry < |g.blocks|
    ensures In(g, StopProblem(g), out, g.entry) == StopAvailable
  {}

  lemma OnwardIsAny(g: CFG, x: BlockId)
    requires Reach(g, Onward(g), g.entry, x)
    ensures Reach(g, Any, g.entry, x)
  {
    var es :| IsWalk(g, Onward(g), g.entry, es, x);
    AnyWalk(g, Onward(g), g.entry, es, x);
  }

  lemma {:induction false} AnyWalk(g: CFG, ok: Edge -> bool, a: BlockId, es: seq<Edge>, b: BlockId)
    requires IsWalk(g, ok, a, es, b)
    ensures IsWalk(g, Any, a, es, b)
    decreases es
  {
    if es != [] { AnyWalk(g, ok, es[0].to, es[1..], b); }
  }

  // StopCapabilityDataflow, read over paths: a reachable block has proven consumption
  // exactly when some walk from the entry to it meets a stop point; otherwise the stop is
  // merely available.  Unreachable blocks, and bodies without a stop mechanism, have none.
  method StopCapabilityDataflow(g: CFG, hasContext: bool) returns (out: map<BlockId, StopCapability>)
    requires EdgesInRange(g.blocks) && Mirrored(g.blocks) && g.entry < |g.blocks|
    ensures forall b: nat :: b in out <==> b < |g.blocks|
    ensures !hasContext ==> forall b :: b in out ==> out[b] == StopNone
    ensures hasContext ==> forall b :: b in out ==>
      out[b] == (if PassesStop(g, b) then StopProvenConsumed else if Reach(g, Any, g.entry, b) then StopAvailable
        else StopNone)
  {
    if !hasContext {
      out := map[];
      for i := 0 to |g.blocks|
        invariant forall b: nat :: (b in out <==> b < i) && (b in out ==> out[b] == StopNone)
      {
        out := out[i := StopNone];
      }
      return;
    }
    hide Reach, EdgesInRange, Mirrored, MeetsPoint, Closed, Semilattice, Monotone, Ranked, Leq, Solved, AtPoint,
      PassesStop;
    StopLattice(g);
    out := Solve(g, StopProblem(g), c => Level(c), 2);
    StopExact(g, out);
    forall b | b in out ensures MeetsPoint(g, b) <==> PassesStop(g, b) { MeetsIsPasses(g, b); }
  }

  lemma StopExact(g: CFG, out: map<BlockId, StopCapability>)
    requires Solution(g, out)
    requires forall b: nat :: b < |g.blocks| && !Reach(g, Any, g.entry, b) ==> out[b] == StopNone
    requires forall sol :: Closed(g, StopProblem(g), sol) ==> forall b :: b in out ==>
      Leq(StopProblem(g), out[b], sol[b])
    ensures forall b :: b in out ==> out[b] == Earned(g, b)
  {
    hide Reach, EdgesInRange, Mirrored, MeetsPoint, Closed, Semilattice, Monotone, Ranked, Leq, Solved, AtPoint;
    StopLattice(g);
    EarnedClosed(g);
    forall b | b in out ensures out[b] == Earned(g, b) {
      assert Leq(StopProblem(g), out[b], EarnedMap(g)[b]);
      if Reach(g, Any, g.entry, b) { Credited(g, out, b); } else { Unearned(g, b); }
    }
  }

  lemma Unearned(g: CFG, b: BlockId)
    requires !Reach(g, Any, g.entry, b)
    ensures !MeetsPoint(g, b)
  {
    hide Reach;
    if MeetsPoint(g, b) {
      var x :| AtPoint(g, x) && Reach(g, Onward(g), g.entry, x) && Reach(g, Onward(g), x, b);
      ReachTrans(g, Onward(g), g.entry, x, b);
      OnwardIsAny(g, b);
    }
  }
}
