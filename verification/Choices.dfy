/**
 Which ways a branch offers, to the machine and in the graph.
 */
module Choices {
  import opened Wrappers
  import opened Graph
  import opened Syntax
  import opened Semantics
  import opened Building
  import opened Closing
  import opened Shapes
  import opened Steps

  /****** The machine ******/

  lemma {:induction false} EntersEach(clauses: seq<Clause>, n: nat, l: Label, k: Kont, i: nat)
    requires i < n <= |clauses|
    ensures CaseMoves(clauses, n, l, true, k)[i] ==
      Move(Jump(EdgeKind.Case), Seq(clauses[i].body, ClauseEnd(l, clauses[i + 1..], k)))
    decreases n
  {
    if i < n - 1 { EntersEach(clauses, n - 1, l, k, i); }
  }

  // A switch enters any of its clauses, in order, and is passed by exactly if none of them,
  // wherever it stands, is the default.
  lemma SwitchMoves(trust: Instr -> bool, body: seq<Stmt>, clauses: seq<Clause>, l: Label, k: Kont)
    ensures var c := Run(Switch(None, clauses), l, k);
      var moves := Moves(trust, body, Focus(c));
      var passes := if exists i :: 0 <= i < |clauses| && clauses[i].isDefault then 0 else 1;
      && |moves| == |clauses| + passes
      && (passes == 1 ==> moves[0] == Move(Jump(Normal), k))
      && forall i :: 0 <= i < |clauses| ==>
        moves[passes + i] == Move(Jump(EdgeKind.Case), Seq(clauses[i].body, ClauseEnd(l, clauses[i + 1..], k)))
  {
    forall i | 0 <= i < |clauses|
      ensures CaseMoves(clauses, |clauses|, l, true, k)[i] ==
        Move(Jump(EdgeKind.Case), Seq(clauses[i].body, ClauseEnd(l, clauses[i + 1..], k)))
    {
      EntersEach(clauses, |clauses|, l, k, i);
    }
  }

  // A known condition goes only its own way, an unknown one both.
  lemma IfMoves(trust: Instr -> bool, body: seq<Stmt>, cond: Cond, thn: seq<Stmt>, els: Option<Stmt>, l: Label, k: Kont)
    ensures var moves := Moves(trust, body, Focus(Run(If(None, cond, thn, els), l, k)));
      var yes := Move(Jump(IfTrue), Seq(thn, Join(k)));
      var no := Move(Jump(IfFalse), if els.Some? then Run(els.value, NO_LABEL, Join(k)) else k);
      && (cond == Known(true) ==> moves == [yes])
      && (cond == Known(false) ==> moves == [no])
      && (cond == Unknown ==> moves == [yes, no])
  {}

  lemma TestMoves(trust: Instr -> bool, body: seq<Stmt>, loop: Stmt, cond: Cond, l: Label, k: Kont)
    requires (loop.For? && loop.test == Some(cond)) || (loop.Range? && cond == Unknown)
    ensures var moves := Moves(trust, body, Focus(Test(l, loop, k)));
      var yes, no := Move(Jump(IfTrue), Seq(loop.loop, Loop(l, loop, k))), Move(Jump(IfFalse), k);
      && (cond == Known(true) ==> moves == [yes])
      && (cond == Known(false) ==> moves == [no])
      && (cond == Unknown ==> moves == [yes, no])
  {}

  /****** The graph ******/

  ghost predicate Offers(r: State, b: BlockId, to: BlockId, kind: EdgeKind) {
    b < |r.blocks| && Edge(b, to, kind) in r.blocks[b].succs
  }

  lemma {:induction false} OnlyCases(c: BlockId, blocks: seq<BlockId>, e: Edge)
    requires e in CaseEdges(c, blocks)
    ensures e.kind == EdgeKind.Case
  {
    if blocks != [] {
      var rest := blocks[..|blocks| - 1];
      if e in CaseEdges(c, rest) { OnlyCases(c, rest, e); }
    }
  }

  lemma {:induction false} CaseEach(c: BlockId, st: State, n: nat, i: nat)
    requires i < n
    ensures Edge(c, SwitchBlock(st, i), EdgeKind.Case) in CaseEdges(c, SwitchBlocks(st, n))
    decreases n
  {
    assert SwitchBlocks(st, n)[..n - 1] == SwitchBlocks(st, n - 1);
    if i < n - 1 { CaseEach(c, st, n - 1, i); }
  }

  // The head of a compiled switch leads to every clause, and past all of them exactly if none
  // is the default.
  lemma SwitchEdges(st: State, clauses: seq<Clause>, l: Label, trust: Instr -> bool)
    requires Ready(st, LabelsOfClauses(clauses, |clauses|))
    ensures var r, after := CompileSwitch(st, clauses, l, trust), Settled(st);
      && (Offers(r, Head(st), after, Normal) <==> forall i :: 0 <= i < |clauses| ==> !clauses[i].isDefault)
      && forall i :: 0 <= i < |clauses| ==> Offers(r, Head(st), SwitchBlock(st, i), EdgeKind.Case)
  {
    hide BlocksOk, NoRepeats, Later, CompileSwitch, Untouched, Resumes, Compiled, CaseEdges, SwitchBlocks,
      SwitchClauseShape, Ready;
    SwitchCompiled(st, clauses, l, trust);
    var c, n := Head(st), |clauses|;
    assert st.current.Some? || st.current.None?;
    var cases := CaseEdges(c, SwitchBlocks(st, n));
    forall e | e in cases ensures e.kind == EdgeKind.Case { OnlyCases(c, SwitchBlocks(st, n), e); }
    forall i | 0 <= i < n ensures Edge(c, SwitchBlock(st, i), EdgeKind.Case) in cases { CaseEach(c, st, n, i); }
  }

  // The head of a compiled if leads into the branches its condition allows.
  lemma IfEdges(st: State, s: Stmt, trust: Instr -> bool)
    requires s.If? && Ready(st, Labels(s))
    ensures var r, c := CompileIf(st, s, trust), Head(st);
      && (Offers(r, c, Settled(st), IfTrue) <==> s.cond != Known(false))
      && ((exists e :: Offers(r, c, e, IfFalse)) <==> s.cond != Known(true))
      && (s.els.None? ==> (Offers(r, c, Settled(st) + 1, IfFalse) <==> s.cond != Known(true)))
  {
    hide BlocksOk, NoRepeats, Later, CompileIf, Untouched, Resumes, Compiled, Exits, ElseStart, ThenEnd, ElseEnd,
      IfThen;
    IfCompiled(st, s, trust);
    var e := ElseStart(st, s, trust).current.value;
    var r, c := CompileIf(st, s, trust), Head(st);
    assert Offers(r, c, e, IfFalse) <==> s.cond != Known(true);
    assert forall b :: Offers(r, c, b, IfFalse) ==> b == e;
  }

  // So does the header of a compiled loop, and without a condition only into the body.
  lemma LoopEdgesAllowed(st: State, test: Option<Cond>, post: Option<Simple>, loop: seq<Stmt>, l: Label,
      trust: Instr -> bool)
    requires Ready(st, LabelsOfList(loop))
    ensures var r, h, b := CompileLoop(st, test, post, loop, l, trust), LoopHeader(st), LoopFirst(st);
      && (Offers(r, h, b, Normal) <==> test.None?)
      && (Offers(r, h, b, IfTrue) <==> test.Some? && test.value != Known(false))
      && (Offers(r, h, b + 1, IfFalse) <==> test.Some? && test.value != Known(true))
  {
    hide BlocksOk, NoRepeats, Later, CompileLoop, Untouched, Resumes, Compiled, Ready, Exits, PostShape, LoopBody,
      BodyEnd;
    LoopCompiled(st, test, post, loop, l, trust);
  }
}
