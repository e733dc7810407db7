/**
 The graph built with trusted calls against the structural one.
 */
module TrustedGraph {
  import opened Wrappers
  import opened Graph
  import opened Syntax
  import opened Building
  import opened Closing
  import opened Steps
  import opened Merging
  import opened Splitting
  import opened MergedBuild
  import opened Correctness
  import Limits
  import Verdict

  /****** Every body with unique labels ******/

  ghost function Whole(n: nat): Merge {
    Merge(seq(n, i => i), seq(n, i => 0), seq(n, i => [i]))
  }

  ghost predicate Bare(st: State) {
    forall b :: 0 <= b < |st.blocks| ==> st.blocks[b].instrs == [] && st.blocks[b].succs == []
  }

  lemma {:induction false} AllocateBare(st: State, ls: seq<Label>)
    requires Inv(st) && Bare(st)
    ensures Bare(AllocateLabels(st, ls))
    decreases ls
  {
    hide BlocksOk;
    if ls != [] {
      var s := NewBlock(st);
      AllocateBare(s.(labels := s.labels[ls[0] := |st.blocks|]), ls[1..]);
    }
  }

  // Before anything is compiled the two graphs are the same.
  lemma BareMerged(st: State, w: Setting)
    requires Inv(st) && Bare(st) && st.frames == []
    ensures Merged(st, st, Whole(|st.blocks|), w)
  {
    hide BlocksOk, Joined;
    var n, m := |st.blocks|, Whole(|st.blocks|);
    forall t: nat | t < n ensures Belongs(m, t) && Piece(st.blocks, st.blocks, m, w.trust, t) {}
    forall c: nat, i: nat | c < |m.parts| && i < |m.parts[c]| ensures Placed(m, c, i) {}
    forall c | 0 <= c < n ensures st.blocks[c].instrs == Joined(st.blocks, m.parts[c]) { JoinedOne(st.blocks, c); }
    if w.apart {
      forall t: nat | t < n ensures CleanAt(st.blocks, m, w.trust, t) {}
    }
  }

  lemma JoinedOne(blocks: seq<BasicBlock>, b: BlockId)
    requires b < |blocks|
    ensures Joined(blocks, [b]) == blocks[b].instrs
  {
    assert [b][..0] == [] && Joined(blocks, []) == [];
  }

  // Merging each block that follows a trusted call into the one before it, and deleting the
  // trusted-stop edges, turns the graph built with trusted calls into the structural one.
  lemma TrustMerges(body: seq<Stmt>, w: Setting) returns (m: Merge)
    requires NoRepeats(LabelsOfList(body)) && (w.apart ==> ApartAll(body, w.trust))
    ensures MergesTo(Build(body, w.trust).blocks, Build(body, STRUCTURAL).blocks, m, w.trust)
    ensures CleanAll(Build(body, w.trust).blocks, m, w)
  {
    hide BlocksOk, CompileList, JumpTo, NoRepeats, Ready, Merged, Inv;
    var st := Begin(body);
    BeginReady(body);
    AllocateBare(Fresh(), LabelsOfList(body));
    BareMerged(st, w);
    m := ListMerged(st, st, Whole(|st.blocks|), body, w);
    var e, e' := CompileList(st, body, w.trust), CompileList(st, body, STRUCTURAL);
    ExitStands(e, e', m, w);
    JumpMerged(e, e', m, w, EXIT, EXIT, Normal);
    ResultMerged(Build(body, w.trust), Build(body, STRUCTURAL), m, w);
  }

  lemma ResultMerged(st: State, rt: State, m: Merge, w: Setting)
    requires Merged(st, rt, m, w)
    ensures MergesTo(st.blocks, rt.blocks, m, w.trust) && CleanAll(st.blocks, m, w)
  {}

  /****** Parts and walks ******/

  ghost predicate Split(m: Merge, c: BlockId) {
    c < |m.parts| && |m.parts[c]| > 1
  }

  // g is built with trusted calls, h without, and m merges g into h.
  ghost predicate Related(g: CFG, h: CFG, m: Merge, trust: Instr -> bool) {
    && MergesTo(g.blocks, h.blocks, m, trust) && g.entry == h.entry == ENTRY && g.exit == h.exit == EXIT
    && EdgesInRange(g.blocks) && EdgesInRange(h.blocks) && EXIT < |g.blocks| && g.blocks[EXIT].succs == []
  }

  lemma PartAt(g: CFG, h: CFG, m: Merge, trust: Instr -> bool, c: BlockId, i: nat)
    requires Related(g, h, m, trust) && c < |h.blocks| && i < |m.parts[c]|
    ensures var t := m.parts[c][i];
      t < |g.blocks| && m.of[t] == c && m.at[t] == i &&
      if i + 1 < |m.parts[c]| then m.parts[c][i + 1] < |g.blocks| && Cut(g.blocks, t, m.parts[c][i + 1], trust)
      else SuccsMatch(g.blocks[t].succs, h.blocks[c].succs, m, t)
  {
    hide Joined;
    var t := m.parts[c][i];
    assert Placed(m, c, i) && Belongs(m, t);
    assert Piece(g.blocks, h.blocks, m, trust, t);
    if i + 1 < |m.parts[c]| { assert Placed(m, c, i + 1); }
  }

  lemma PartOf(g: CFG, h: CFG, m: Merge, trust: Instr -> bool, t: BlockId)
    requires Related(g, h, m, trust) && t < |g.blocks|
    ensures m.of[t] < |h.blocks| && m.at[t] < |m.parts[m.of[t]]| && m.parts[m.of[t]][m.at[t]] == t
    ensures m.of[t] == EXIT <==> t == EXIT
  {
    hide Joined, Piece;
    assert Belongs(m, t) && Placed(m, EXIT, 0);
  }

  lemma Whereabouts(g: CFG, h: CFG, m: Merge, trust: Instr -> bool, c: BlockId)
    requires Related(g, h, m, trust) && c < |h.blocks|
    ensures Has(m, c) && First(m, c) < |g.blocks| && Last(m, c) < |g.blocks|
    ensures m.of[First(m, c)] == c && First(m, ENTRY) == ENTRY && First(m, EXIT) == Last(m, EXIT) == EXIT
  {
    hide Joined, Piece;
    assert Placed(m, c, 0) && Placed(m, c, |m.parts[c]| - 1);
  }

  // From one part of a block to a later one.
  lemma {:induction false} Along(g: CFG, h: CFG, m: Merge, trust: Instr -> bool, c: BlockId, i: nat, j: nat)
    requires Related(g, h, m, trust) && c < |h.blocks| && i <= j < |m.parts[c]|
    ensures Reach(g, Any, m.parts[c][i], m.parts[c][j])
    decreases j - i
  {
    hide Related;
    OfSize(g, h, m, trust);
    PartAt(g, h, m, trust, c, i);
    if i == j {
      ReachRefl(g, Any, m.parts[c][i]);
    } else {
      ReachEdge(g, Any, m.parts[c][i], g.blocks[m.parts[c][i]].succs[0]);
      Along(g, h, m, trust, c, i + 1, j);
      ReachTrans(g, Any, m.parts[c][i], m.parts[c][i + 1], m.parts[c][j]);
    }
  }

  // A part that is cut may stop at once.
  lemma CutStops(g: CFG, h: CFG, m: Merge, trust: Instr -> bool, c: BlockId, i: nat)
    requires Related(g, h, m, trust) && c < |h.blocks| && i + 1 < |m.parts[c]|
    ensures Reach(g, Any, m.parts[c][i], EXIT)
  {
    PartAt(g, h, m, trust, c, i);
    ReachEdge(g, Any, m.parts[c][i], g.blocks[m.parts[c][i]].succs[1]);
  }

  lemma LiftEdge(g: CFG, h: CFG, m: Merge, trust: Instr -> bool, c: BlockId, e: Edge)
    requires Related(g, h, m, trust) && c < |h.blocks| && e in h.blocks[c].succs
    ensures Has(m, e.to) && e.to < |h.blocks| && Reach(g, Any, Last(m, c), First(m, e.to))
    ensures exists f :: f in g.blocks[Last(m, c)].succs && f.to == First(m, e.to)
  {
    hide Joined, Piece;
    Whereabouts(g, h, m, trust, c);
    PartAt(g, h, m, trust, c, |m.parts[c]| - 1);
    var j :| 0 <= j < |h.blocks[c].succs| && h.blocks[c].succs[j] == e;
    Whereabouts(g, h, m, trust, e.to);
    var f := g.blocks[Last(m, c)].succs[j];
    assert f in g.blocks[Last(m, c)].succs;
    ReachEdge(g, Any, Last(m, c), f);
  }

  lemma {:induction false} LiftWalk(g: CFG, h: CFG, m: Merge, trust: Instr -> bool, c: BlockId, es: seq<Edge>,
      d: BlockId)
    requires Related(g, h, m, trust) && IsWalk(h, Any, c, es, d)
    ensures c < |h.blocks| && d < |h.blocks| && Has(m, c) && Has(m, d)
    ensures Reach(g, Any, First(m, c), First(m, d))
    ensures es != [] ==> Reach(g, Any, Last(m, c), First(m, d))
    decreases es
  {
    hide Related;
    Whereabouts(g, h, m, trust, c);
    if es == [] {
      ReachRefl(g, Any, First(m, c));
    } else {
      LiftWalk(g, h, m, trust, es[0].to, es[1..], d);
      LiftEdge(g, h, m, trust, c, es[0]);
      Along(g, h, m, trust, c, 0, |m.parts[c]| - 1);
      ReachTrans(g, Any, Last(m, c), First(m, es[0].to), First(m, d));
      ReachTrans(g, Any, First(m, c), Last(m, c), First(m, d));
    }
  }

  // What a walk under trust shows structurally: its end, or that it stopped in a split block.
  lemma {:induction false} ProjectWalk(g: CFG, h: CFG, m: Merge, trust: Instr -> bool, t: BlockId, es: seq<Edge>,
      u: BlockId)
    requires Related(g, h, m, trust) && IsWalk(g, Any, t, es, u)
    ensures t < |g.blocks| == |m.of| && u < |g.blocks|
    ensures Reach(h, Any, m.of[t], m.of[u]) || (u == EXIT && exists d :: Reach(h, Any, m.of[t], d) && Split(m, d))
    decreases es
  {
    hide MergesTo;
    WalkStaysInRange(g, Any, t, es, u);
    OfSize(g, h, m, trust);
    PartOf(g, h, m, trust, t);
    var c := m.of[t];
    ReachRefl(h, Any, c);
    if es != [] {
      ProjectWalk(g, h, m, trust, es[0].to, es[1..], u);
      PartAt(g, h, m, trust, c, m.at[t]);
      if m.at[t] + 1 < |m.parts[c]| {
        if es[0] == g.blocks[t].succs[0] {
          PartAt(g, h, m, trust, c, m.at[t] + 1);
        } else {
          assert es[0].to == EXIT;
          assert es[1..] == [];
          assert Split(m, c);
        }
      } else {
        var j :| 0 <= j < |g.blocks[t].succs| && g.blocks[t].succs[j] == es[0];
        StepOn(g, h, m, trust, t, j, u);
      }
    }
  }

  lemma OfSize(g: CFG, h: CFG, m: Merge, trust: Instr -> bool)
    requires Related(g, h, m, trust)
    ensures |m.of| == |m.at| == |g.blocks| && |m.parts| == |h.blocks| && 2 <= |h.blocks|
  {}

  // The j-th edge out of an uncut part is an edge of its block.
  lemma StepOn(g: CFG, h: CFG, m: Merge, trust: Instr -> bool, t: BlockId, j: nat, u: BlockId)
    requires Related(g, h, m, trust) && t < |g.blocks| == |m.of| == |m.at| && u < |g.blocks| && m.of[t] < |h.blocks|
    requires m.at[t] < |m.parts[m.of[t]]| && m.parts[m.of[t]][m.at[t]] == t && m.at[t] + 1 == |m.parts[m.of[t]]|
      && j < |g.blocks[t].succs|
    ensures j < |h.blocks[m.of[t]].succs|
    ensures var e, x := g.blocks[t].succs[j], h.blocks[m.of[t]].succs[j];
      x.to < |h.blocks| && e.to < |g.blocks| && Has(m, x.to) && e.to == First(m, x.to) && m.of[e.to] == x.to
      && forall d :: Reach(h, Any, x.to, d) ==> Reach(h, Any, m.of[t], d)
  {
    hide MergesTo;
    var c := m.of[t];
    PartAt(g, h, m, trust, c, m.at[t]);
    var x := h.blocks[c].succs[j];
    assert x in h.blocks[c].succs;
    Whereabouts(g, h, m, trust, x.to);
    ReachEdge(h, Any, c, x);
    forall d | Reach(h, Any, x.to, d) ensures Reach(h, Any, c, d) { ReachTrans(h, Any, c, x.to, d); }
  }

  /****** Nothing becomes unreachable ******/

  // Every block but the exit is reachable exactly if the block it is part of is reachable
  // structurally.
  lemma NothingLost(g: CFG, h: CFG, m: Merge, trust: Instr -> bool, t: BlockId)
    requires Related(g, h, m, trust) && t < |g.blocks| && t != EXIT
    ensures t < |m.of|
    ensures Reach(g, Any, g.entry, t) <==> Reach(h, Any, h.entry, m.of[t])
  {
    hide MergesTo;
    OfSize(g, h, m, trust);
    PartOf(g, h, m, trust, t);
    Whereabouts(g, h, m, trust, ENTRY);
    if Reach(g, Any, ENTRY, t) {
      var es :| IsWalk(g, Any, ENTRY, es, t);
      ProjectWalk(g, h, m, trust, ENTRY, es, t);
    }
    if Reach(h, Any, ENTRY, m.of[t]) {
      var es :| IsWalk(h, Any, ENTRY, es, m.of[t]);
      LiftWalk(g, h, m, trust, ENTRY, es, m.of[t]);
      Along(g, h, m, trust, m.of[t], 0, m.at[t]);
      ReachTrans(g, Any, ENTRY, First(m, m.of[t]), t);
    }
  }

  /****** The verdict ******/

  // A reachable block of the structural graph on a cycle, from which neither the exit nor a
  // split block is reached.
  ghost predicate Stuck(h: CFG, m: Merge, c: BlockId) {
    && Reach(h, Any, h.entry, c) && OnCycle(h, c) && !Reach(h, Any, c, h.exit)
    && forall d :: Reach(h, Any, c, d) ==> !Split(m, d)
  }

  lemma StuckTraps(g: CFG, h: CFG, m: Merge, trust: Instr -> bool, c: BlockId)
    requires Related(g, h, m, trust) && Stuck(h, m, c)
    ensures Has(m, c) && Verdict.Trap(g, First(m, c))
  {
    hide MergesTo;
    OfSize(g, h, m, trust);
    var p :| IsWalk(h, Any, ENTRY, p, c);
    LiftWalk(g, h, m, trust, ENTRY, p, c);
    Whereabouts(g, h, m, trust, c);
    ReachRefl(h, Any, c);
    assert !Split(m, c) && First(m, c) == Last(m, c);
    var t := First(m, c);
    var e :| e in h.blocks[c].succs && Reach(h, Any, e.to, c);
    LiftEdge(g, h, m, trust, c, e);
    var q :| IsWalk(h, Any, e.to, q, c);
    LiftWalk(g, h, m, trust, e.to, q, c);
    if Reach(g, Any, t, EXIT) {
      var r :| IsWalk(g, Any, t, r, EXIT);
      ProjectWalk(g, h, m, trust, t, r, EXIT);
      PartOf(g, h, m, trust, EXIT);
    }
  }

  lemma TrapIsStuck(g: CFG, h: CFG, m: Merge, trust: Instr -> bool, t: BlockId)
    requires Related(g, h, m, trust) && Verdict.Trap(g, t)
    ensures t < |m.of| && Stuck(h, m, m.of[t])
  {
    hide MergesTo;
    OfSize(g, h, m, trust);
    PartOf(g, h, m, trust, t);
    var c := m.of[t];
    NothingLost(g, h, m, trust, t);
    if m.at[t] + 1 < |m.parts[c]| { CutStops(g, h, m, trust, c, m.at[t]); }
    var cycle := CycleBelow(g, h, m, trust, t);
    assert OnCycle(h, c) by {
      assert cycle[0] in h.blocks[c].succs && IsWalk(h, Any, cycle[0].to, cycle[1..], c);
    }
    forall d | Reach(h, Any, c, d) ensures d != EXIT && !Split(m, d) { NoWayOut(g, h, m, trust, t, cycle, d); }
  }

  // A cycle through the last part of a block is one through the block.
  lemma CycleBelow(g: CFG, h: CFG, m: Merge, trust: Instr -> bool, t: BlockId) returns (cycle: seq<Edge>)
    requires Related(g, h, m, trust) && t < |m.of| == |m.at| == |g.blocks| && m.of[t] < |h.blocks| == |m.parts|
      && OnCycle(g, t) && t != EXIT
    requires m.at[t] + 1 == |m.parts[m.of[t]]| && m.parts[m.of[t]][m.at[t]] == t
    ensures cycle != [] && IsWalk(h, Any, m.of[t], cycle, m.of[t])
  {
    hide MergesTo;
    var c := m.of[t];
    var e :| e in g.blocks[t].succs && Reach(g, Any, e.to, t);
    var j :| 0 <= j < |g.blocks[t].succs| && g.blocks[t].succs[j] == e;
    StepOn(g, h, m, trust, t, j, t);
    var x := h.blocks[c].succs[j];
    var q :| IsWalk(g, Any, e.to, q, t);
    ProjectWalk(g, h, m, trust, e.to, q, t);
    var r :| IsWalk(h, Any, x.to, r, c);
    assert x in h.blocks[c].succs && ([x] + r)[1..] == r;
    cycle := [x] + r;
  }

  // t is the last part of a block on a structural cycle, and cannot reach the exit.
  lemma NoWayOut(g: CFG, h: CFG, m: Merge, trust: Instr -> bool, t: BlockId, cycle: seq<Edge>, d: BlockId)
    requires Related(g, h, m, trust) && t < |m.of| && m.of[t] < |m.parts| && Has(m, m.of[t]) && Last(m, m.of[t]) == t
    requires IsWalk(h, Any, m.of[t], cycle, m.of[t]) && cycle != [] && Reach(h, Any, m.of[t], d)
      && !Reach(g, Any, t, EXIT)
    ensures d != EXIT && !Split(m, d)
  {
    hide MergesTo;
    var c := m.of[t];
    var es :| IsWalk(h, Any, c, es, d);
    WalkAppend(h, Any, c, cycle, c, es, d);
    LiftWalk(g, h, m, trust, c, cycle + es, d);
    Whereabouts(g, h, m, trust, d);
    if Split(m, d) {
      CutStops(g, h, m, trust, d, 0);
      ReachTrans(g, Any, t, First(m, d), EXIT);
    }
  }

  // UnresolvedLoop under trust, asked of the structural graph.
  lemma MergedVerdict(g: CFG, h: CFG, m: Merge, trust: Instr -> bool)
    requires Related(g, h, m, trust)
    ensures (exists t :: Verdict.Trap(g, t)) <==> exists c :: Stuck(h, m, c)
  {
    hide Verdict.Trap, Stuck, Related;
    if t :| Verdict.Trap(g, t) { TrapIsStuck(g, h, m, trust, t); }
    if c :| Stuck(h, m, c) { StuckTraps(g, h, m, trust, c); }
  }

  /****** Split blocks are those with a trusted call ******/

  lemma {:induction false} InJoined(blocks: seq<BasicBlock>, part: seq<BlockId>, i: nat, k: nat)
    requires i < |part| && part[i] < |blocks| && k < |blocks[part[i]].instrs|
    ensures blocks[part[i]].instrs[k] in Joined(blocks, part)
    decreases |part|
  {
    if i < |part| - 1 { InJoined(blocks, part[..|part| - 1], i, k); }
  }

  lemma SplitIsTrusted(g: CFG, h: CFG, m: Merge, w: Setting, c: BlockId)
    requires Related(g, h, m, w.trust) && c < |h.blocks|
    ensures Split(m, c) ==> !Clean(h.blocks[c].instrs, w.trust)
    ensures w.apart && CleanAll(g.blocks, m, w) && !Split(m, c) ==> Clean(h.blocks[c].instrs, w.trust)
  {
    hide Joined, Piece;
    Whereabouts(g, h, m, w.trust, c);
    PartAt(g, h, m, w.trust, c, 0);
    var t := First(m, c);
    if Split(m, c) {
      InJoined(g.blocks, m.parts[c], 0, |g.blocks[t].instrs| - 1);
    } else if w.apart && CleanAll(g.blocks, m, w) {
      assert CleanAt(g.blocks, m, w.trust, t);
      assert m.parts[c] == [t];
      JoinedOne(g.blocks, t);
    }
  }

  // The block that follows a trusted call has no other predecessor.
  lemma SolePredecessor(body: seq<Stmt>, trust: Instr -> bool, m: Merge, c: BlockId, i: nat)
    requires MergesTo(Build(body, trust).blocks, Build(body, STRUCTURAL).blocks, m, trust)
    requires c < |m.parts| && i + 1 < |m.parts[c]|
    ensures m.parts[c][i + 1] < |Build(body, trust).blocks|
    ensures Build(body, trust).blocks[m.parts[c][i + 1]].preds == [m.parts[c][i]]
  {
    hide MergesTo, Build;
    var st := Build(body, trust);
    var g, h, p, b := GraphFor(body, trust), GraphFor(body, STRUCTURAL), m.parts[c][i], m.parts[c][i + 1];
    BuiltRelated(body, trust, m);
    OfSize(g, h, m, trust);
    PartAt(g, h, m, trust, c, i);
    PartAt(g, h, m, trust, c, i + 1);
    var preds := st.blocks[b].preds;
    forall q: nat ensures multiset(preds)[q] == multiset{p}[q] {
      assert Listed(st.blocks, b, q) == Edges(st.blocks, q, b);
      EdgesInto(g, h, m, trust, c, i, q);
    }
    assert multiset(preds) == multiset{p};
    assert |preds| == |multiset(preds)| == 1 && preds == [preds[0]];
    assert preds[0] in multiset(preds);
  }

  lemma EdgesInto(g: CFG, h: CFG, m: Merge, trust: Instr -> bool, c: BlockId, i: nat, q: BlockId)
    requires Related(g, h, m, trust) && c < |h.blocks| == |m.parts| && i + 1 < |m.parts[c]|
    ensures Edges(g.blocks, q, m.parts[c][i + 1]) == if q == m.parts[c][i] then 1 else 0
  {
    hide MergesTo;
    OfSize(g, h, m, trust);
    PartAt(g, h, m, trust, c, i);
    PartAt(g, h, m, trust, c, i + 1);
    PartAt(g, h, m, trust, EXIT, 0) by { OnlyExit(g, h, m, trust); }
    var b := m.parts[c][i + 1];
    assert m.parts[EXIT][0] == EXIT by { OnlyExit(g, h, m, trust); }
    if q == m.parts[c][i] {
      TwoEdges(g.blocks[q].succs, b);
    } else if q < |g.blocks| {
      PartOf(g, h, m, trust, q);
      PartAt(g, h, m, trust, m.of[q], m.at[q]);
      forall j | 0 <= j < |g.blocks[q].succs| ensures g.blocks[q].succs[j].to != b {
        OtherEdge(g, h, m, trust, c, i, q, j);
      }
      NoEdgesTo(g.blocks[q].succs, b);
    }
  }

  lemma TwoEdges(succs: seq<Edge>, b: BlockId)
    requires |succs| == 2 && succs[0].to == b && succs[1].to != b
    ensures EdgesTo(succs, b) == 1
  {
    assert succs[..1][..0] == [] && EdgesTo(succs[..1], b) == 1;
  }

  // No other block has an edge to a part that is not the first.
  lemma OtherEdge(g: CFG, h: CFG, m: Merge, trust: Instr -> bool, c: BlockId, i: nat, q: BlockId, j: nat)
    requires Related(g, h, m, trust) && c < |h.blocks| == |m.parts| && i + 1 < |m.parts[c]| && q < |g.blocks|
      && j < |g.blocks[q].succs|
    requires q != m.parts[c][i]
    ensures g.blocks[q].succs[j].to != m.parts[c][i + 1]
  {
    hide MergesTo;
    OfSize(g, h, m, trust);
    PartAt(g, h, m, trust, c, i + 1);
    Whereabouts(g, h, m, trust, EXIT);
    PartOf(g, h, m, trust, q);
    var d, k := m.of[q], m.at[q];
    PartAt(g, h, m, trust, d, k);
    PartAt(g, h, m, trust, EXIT, 0) by { OnlyExit(g, h, m, trust); }
    if k + 1 < |m.parts[d]| {
      PartAt(g, h, m, trust, d, k + 1);
    } else {
      StepOn(g, h, m, trust, q, j, q);
      PartAt(g, h, m, trust, h.blocks[d].succs[j].to, 0);
    }
  }

  lemma OnlyExit(g: CFG, h: CFG, m: Merge, trust: Instr -> bool)
    requires Related(g, h, m, trust)
    ensures m.parts[EXIT] == [EXIT]
  {}

  lemma BuiltRelated(body: seq<Stmt>, trust: Instr -> bool, m: Merge)
    requires MergesTo(Build(body, trust).blocks, Build(body, STRUCTURAL).blocks, m, trust)
    ensures Related(GraphFor(body, trust), GraphFor(body, STRUCTURAL), m, trust)
  {
    hide MergesTo, PredsExact, Build;
  }

  // The loop verdict under trust: a reachable cyclic point of the structural graph reaches
  // neither the exit nor a block with a trusted call.
  ghost predicate Undelegated(h: CFG, trust: Instr -> bool, c: BlockId) {
    && Reach(h, Any, h.entry, c) && OnCycle(h, c) && !Reach(h, Any, c, h.exit)
    && forall d: BlockId :: Reach(h, Any, c, d) && d < |h.blocks| ==> Clean(h.blocks[d].instrs, trust)
  }

  lemma VerdictUnderTrust(body: seq<Stmt>, trust: Instr -> bool)
    requires NoRepeats(LabelsOfList(body)) && ApartAll(body, trust)
    ensures (exists t :: Verdict.Trap(GraphFor(body, trust), t)) <==>
      exists c :: Undelegated(GraphFor(body, STRUCTURAL), trust, c)
  {
    hide MergesTo, CleanAll, Verdict.Trap, Build, NoRepeats, ApartAll, Clean, OnCycle;
    var w := Setting(trust, true);
    var m := TrustMerges(body, w);
    BuiltRelated(body, trust, m);
    var g, h := GraphFor(body, trust), GraphFor(body, STRUCTURAL);
    MergedVerdict(g, h, m, trust);
    OfSize(g, h, m, trust);
    forall c ensures Stuck(h, m, c) <==> Undelegated(h, trust, c) {
      forall d: BlockId | d < |h.blocks| ensures Split(m, d) <==> !Clean(h.blocks[d].instrs, trust) {
        SplitIsTrusted(g, h, m, w, d);
      }
    }
  }

  /****** A label declared twice ******/

  predicate TrustOne(id: Instr) { id == 1 }

  // _: one(); _: two()   where one is trusted
  const TWICE: seq<Stmt> := [Labeled("_", Exec(Simple(1, [], false))), Labeled("_", Exec(Simple(2, [], false)))]

  // The blocks before the first statement, and after it with trust and without.
  ghost predicate TwiceBegun(st: State) {
    Inv(st) && |st.blocks| == 4 && Bare(st) && st.labels == map["_" := 3] && st.current == Some(0)
  }

  lemma TwiceBegins()
    ensures TwiceBegun(Begin(TWICE))
  {
    hide BlocksOk, AllocateLabels;
    TwiceLabels();
    Limits.TwoBlankLabels(Fresh());
  }

  lemma TwiceLabels()
    ensures LabelsOfList(TWICE) == ["_", "_"]
  {
    assert TWICE[1..][1..] == [];
    assert LabelsOfList(TWICE[1..]) == ["_"];
  }

  ghost function Second(st: State, trust: Instr -> bool, id: Instr): (r: State)
    requires Inv(st)
    ensures Inv(r)
  {
    SimpleStep(EnterLabel(st, "_"), Simple(id, [], false), trust)
  }

  lemma TwiceCompiles(st: State, trust: Instr -> bool)
    requires Inv(st)
    ensures CompileList(st, TWICE, trust) == Second(Second(st, trust, 1), trust, 2)
  {
    hide BlocksOk, Inv, Second, Compile;
    OneCompiles(st, 1, trust);
    var d := Second(st, trust, 1);
    OneCompiles(d, 2, trust);
    Limits.TwoStmts(st, d, Second(d, trust, 2), TWICE, trust);
  }

  lemma OneCompiles(st: State, id: Instr, trust: Instr -> bool)
    requires Inv(st)
    ensures Compile(st, Labeled("_", Exec(Simple(id, [], false))), NO_LABEL, trust) == Second(st, trust, id)
  {
    hide BlocksOk, Inv, SimpleStep, EnterLabel;
    assert Compile(EnterLabel(st, "_"), Exec(Simple(id, [], false)), "_", trust) == Second(st, trust, id);
  }

  // With trust the second label goes back to the block that was cut.
  lemma TwiceTrusted(st: State, d: State, e: State)
    requires TwiceBegun(st) && d == Second(st, TrustOne, 1) && e == Second(d, TrustOne, 2)
    ensures e.current == Some(3) && |e.blocks| == 5 && |e.blocks[3].succs| == 2
  {
    hide BlocksOk;
    TwiceFirst(st, d);
    TwiceSecond(d, e);
  }

  lemma TwiceFirst(st: State, d: State)
    requires TwiceBegun(st) && d == Second(st, TrustOne, 1)
    ensures d.current == Some(4) && |d.blocks| == 5 && |d.blocks[3].succs| == 2 && d.labels == map["_" := 3]
  {
    hide BlocksOk;
    var x := Simple(1, [], false);
    var s := EnterLabel(st, "_");
    assert RecordAll(s, []) == s;
  }

  lemma TwiceSecond(d: State, e: State)
    requires Inv(d) && d.current == Some(4) && |d.blocks| == 5 && |d.blocks[3].succs| == 2 && d.labels == map["_" := 3]
    requires e == Second(d, TrustOne, 2)
    ensures e.current == Some(3) && |e.blocks| == 5 && |e.blocks[3].succs| == 2
  {
    hide BlocksOk;
    var s := EnterLabel(d, "_");
    assert RecordAll(s, []) == s;
  }

  ghost predicate Thin(blocks: seq<BasicBlock>) {
    forall b :: 0 <= b < |blocks| ==> |blocks[b].succs| <= 1
  }

  lemma TwiceStructural(st: State, e: State, f: State)
    requires TwiceBegun(st) && e == Second(Second(st, STRUCTURAL, 1), STRUCTURAL, 2) && f == JumpTo(e, EXIT, Normal)
    ensures Thin(f.blocks)
  {
    hide BlocksOk;
    var s := EnterLabel(st, "_");
    assert RecordAll(s, []) == s;
    var d := Second(st, STRUCTURAL, 1);
    assert d.current == Some(3) && EnterLabel(d, "_") == d && RecordAll(d, []) == d;
  }

  // The label is entered again after its block was cut: that block ends up with three edges,
  // and no merging gives the structural graph.
  lemma RepeatedLabelSplits(m: Merge)
    ensures !MergesTo(Build(TWICE, TrustOne).blocks, Build(TWICE, STRUCTURAL).blocks, m, TrustOne)
  {
    hide BlocksOk, Second, TwiceBegun, JumpTo, Begin, CompileList, Joined, Thin;
    TwiceBegins();
    var st := Begin(TWICE);
    TwiceCompiles(st, TrustOne) by { BegunInv(st); }
    TwiceCompiles(st, STRUCTURAL);
    var e := Second(Second(st, TrustOne, 1), TrustOne, 2);
    TwiceTrusted(st, Second(st, TrustOne, 1), e);
    ThreeEdges(e, Build(TWICE, TrustOne));
    TwiceStructural(st, CompileList(st, TWICE, STRUCTURAL), Build(TWICE, STRUCTURAL));
    var ts, ss := Build(TWICE, TrustOne).blocks, Build(TWICE, STRUCTURAL).blocks;
    if MergesTo(ts, ss, m, TrustOne) { FewEdges(ts, ss, m, TrustOne, 3); }
  }

  lemma BegunInv(st: State)
    requires TwiceBegun(st)
    ensures Inv(st)
  {}

  lemma ThreeEdges(e: State, f: State)
    requires Inv(e) && e.current == Some(3) && |e.blocks| == 5 && |e.blocks[3].succs| == 2
      && f == JumpTo(e, EXIT, Normal)
    ensures |f.blocks| == 5 && |f.blocks[3].succs| == 3
  {
    hide BlocksOk;
  }

  // Merging into a graph whose blocks have at most one edge, no block has more than two.
  lemma FewEdges(ts: seq<BasicBlock>, ss: seq<BasicBlock>, m: Merge, trust: Instr -> bool, t: BlockId)
    requires MergesTo(ts, ss, m, trust) && Thin(ss) && t < |ts|
    ensures |ts[t].succs| <= 2
  {
    hide Joined;
    assert Belongs(m, t) && Piece(ts, ss, m, trust, t);
  }
}
