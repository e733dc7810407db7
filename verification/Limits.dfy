/**
 Legal bodies the builder does not translate faithfully, and where the line runs.

 The language reference lets a fallthrough be the last non-empty statement of a clause and
 lets it carry labels, and it lets the blank label be declared more than once.  The builder
 sees a fallthrough only as the literally last statement, and keeps one block per label name.
 */
module Limits {
  import opened Wrappers
  import opened Graph
  import opened Syntax
  import opened Semantics
  import opened Building
  import opened Closing
  import opened Shapes
  import opened Steps
  import opened Simulation
  import opened Bisimulation
  import opened Correctness

  /****** A body on the right side of the line ******/

  // L: switch { case a: fallthrough; default: goto L }
  const FALLS: seq<Clause> := [Clause(false, [FallthroughStmt(1)]), Clause(true, [GotoStmt("L")])]

  const FAITHFUL: seq<Stmt> := [Labeled("L", Switch(None, FALLS))]

  lemma FaithfulIsWellFormed()
    ensures WellFormed(FAITHFUL)
  {
    hide LabelsOfClauses;
    FallsAreFine();
    assert FallsPlaced(Switch(None, FALLS));
    assert FallsPlaced(FAITHFUL[0]);
    assert Labels(FAITHFUL[0]) == ["L"] && FAITHFUL[1..] == [];
    assert LabelsOfList(FAITHFUL) == ["L"];
  }

  lemma FallsAreFine()
    ensures LabelsOfClauses(FALLS, 2) == []
    ensures forall i :: 0 <= i < 2 ==> FallsPlacedInClause(FALLS[i].body, i + 1 < 2)
  {
    assert FALLS[0].body[1..] == [] && FALLS[1].body[1..] == [];
    assert LabelsOfList(FALLS[0].body) == [] && LabelsOfList(FALLS[1].body) == [];
    assert LabelsOfClauses(FALLS, 1) == LabelsOfClauses(FALLS, 0) + [];
  }

  /****** fallthrough followed by an empty statement ******/

  // switch { case a: fallthrough; ; case b: statement 1 }
  const FALLING: seq<Clause> := [Clause(false, [FallthroughStmt(7), Empty]), Clause(false, [Opaque(1)])]

  const FALL_BODY: seq<Stmt> := [Switch(None, FALLING)]

  const FALL_EVENTS: seq<Event> := [Jump(EdgeKind.Case), Jump(EdgeKind.Fallthrough), Event.Emit(1)]

  // The blocks once the first n clauses are compiled.
  ghost predicate FallStage(bs: seq<BasicBlock>, n: nat)
    requires n <= 2
  {
    && |bs| == 5 && bs[0].instrs == [] && bs[3].instrs == []
    && bs[0].succs == [Edge(0, 2, Normal), Edge(0, 3, EdgeKind.Case), Edge(0, 4, EdgeKind.Case)][..n + 1]
    && bs[3].succs == (if n == 0 then [] else [Edge(3, 2, Normal)])
    && bs[4].instrs == (if n == 2 then [1] else [])
  }

  ghost function FallAt(n: nat): State
    requires n <= 2
  {
    SwitchAt(Fresh(), FALLING, n, NO_LABEL, STRUCTURAL)
  }

  lemma ThreeBlocks(f: State)
    requires Inv(f)
    ensures NewBlocks(NewBlock(f), 2) == NewBlock(NewBlock(NewBlock(f)))
  {
    hide BlocksOk, NewBlock;
    assert NewBlocks(NewBlock(f), 0) == NewBlock(f);
    assert NewBlocks(NewBlock(f), 1) == NewBlock(NewBlock(f));
  }

  lemma FallStart()
    ensures FallStage(FallAt(0).blocks, 0)
  {
    hide BlocksOk, NewBlocks, SwitchStart;
    assert FallAt(0) == SwitchStart(Fresh(), FALLING, NO_LABEL);
    FallStarted(Fresh());
  }

  lemma FallStarted(f: State)
    requires f == Fresh()
    ensures FallStage(SwitchStart(f, FALLING, NO_LABEL).blocks, 0)
  {
    hide BlocksOk, NewBlocks;
    ThreeBlocks(f);
    assert !HasDefault(FALLING);
  }

  lemma FallFirst()
    ensures FallStage(FallAt(1).blocks, 1)
  {
    hide BlocksOk, SwitchStart, NewBlocks, Compile;
    FallStart();
    var e := SwitchEnter(Fresh(), 0, FallAt(0));
    assert CompileCase(e, FALLING[0].body, STRUCTURAL) == (e, false);
    assert FallAt(1) == SwitchLeave(Fresh(), 2, 0, e, false);
  }

  lemma FallSecond()
    ensures FallStage(FallAt(2).blocks, 2)
  {
    hide BlocksOk, SwitchStart, NewBlocks, Compile, CompileCase, Building.Emit, SwitchEnter, SwitchLeave;
    FallFirst();
    var e := SwitchEnter(Fresh(), 1, FallAt(1));
    SecondCase(e);
    assert FallAt(2) == SwitchLeave(Fresh(), 2, 1, Building.Emit(e, 1), false);
    SecondDone(FallAt(1), e, FallAt(2));
  }

  lemma SecondCase(e: State)
    requires Inv(e)
    ensures CompileCase(e, FALLING[1].body, STRUCTURAL) == (Building.Emit(e, 1), false)
  {
    hide BlocksOk, Building.Emit;
    assert FALLING[1].body[1..] == [];
    assert CompileCase(Building.Emit(e, 1), [], STRUCTURAL) == (Building.Emit(e, 1), false);
  }

  lemma SecondDone(s: State, e: State, r: State)
    requires Inv(s) && FallStage(s.blocks, 1) && e == SwitchEnter(Fresh(), 1, s)
    requires r == SwitchLeave(Fresh(), 2, 1, Building.Emit(e, 1), false)
    ensures FallStage(r.blocks, 2)
  {
    hide BlocksOk;
  }

  lemma FallBlocks()
    ensures FallStage(Build(FALL_BODY, STRUCTURAL).blocks, 2)
  {
    hide BlocksOk, SwitchAt, FallStage;
    FallSecond();
    FallCompiles(Fresh());
    assert Begin(FALL_BODY) == Fresh() by { NoLabelsHere(); }
    Finish(MultiDone(Fresh(), FallAt(2)), Build(FALL_BODY, STRUCTURAL));
  }

  lemma FallCompiles(f: State)
    requires f == Fresh()
    ensures CompileList(f, FALL_BODY, STRUCTURAL) == MultiDone(f, FallAt(2))
  {
    hide BlocksOk, SwitchAt, MultiDone, CompileIf, CompileLoop, CompileSelect, EnterLabel, SimpleStep, SpecsStep,
      Branch,
      Building.Emit, Record, RecordAll, JumpTo, Inv;
    var d := MultiDone(f, FallAt(2));
    assert Compile(f, FALL_BODY[0], NO_LABEL, STRUCTURAL) == d by { assert InitStep(f, None, STRUCTURAL) == f; }
    assert FALL_BODY[1..] == [] && CompileList(d, [], STRUCTURAL) == d;
  }

  lemma Finish(d: State, r: State)
    requires Inv(d) && FallStage(d.blocks, 2) && d.current == Some(2) && r == JumpTo(d, EXIT, Normal)
    ensures FallStage(r.blocks, 2)
  {
    hide BlocksOk;
  }

  lemma NoLabelsHere()
    ensures LabelsOfList(FALL_BODY) == []
  {
    assert LabelsOfList(FALLING[0].body) == [] by {
      assert FALLING[0].body[1..] == [Empty] && LabelsOfList([Empty]) == [];
    }
    assert LabelsOfList(FALLING[1].body) == [];
    assert LabelsOfClauses(FALLING, 1) == [] by { assert LabelsOfClauses(FALLING, 0) == []; }
    assert LabelsOfClauses(FALLING, 2) == [];
    assert FALL_BODY[1..] == [];
  }

  // The body runs into its second clause; the graph leaves the switch instead.
  lemma FallthroughBeforeEmpty()
    ensures Executes(STRUCTURAL, FALL_BODY, Start(FALL_BODY), FALL_EVENTS, SECOND_DONE)
    ensures !exists to :: Walks(GraphFor(FALL_BODY, STRUCTURAL), BEGINNING, FALL_EVENTS, to)
  {
    FallRuns();
    var g := GraphFor(FALL_BODY, STRUCTURAL);
    FallBlocks();
    forall to ensures !Walks(g, BEGINNING, FALL_EVENTS, to) { FallWalks(g, to); }
  }

  const AFTER_FALL := Seq([], Leave(Normal))
  const FIRST_CASE := Seq(FALLING[0].body, ClauseEnd(NO_LABEL, FALLING[1..], AFTER_FALL))
  const SECOND_CASE := Seq(FALLING[1].body, ClauseEnd(NO_LABEL, [], AFTER_FALL))
  const SECOND_DONE := Seq([], ClauseEnd(NO_LABEL, [], AFTER_FALL))

  lemma FallEnters()
    ensures Move(Jump(EdgeKind.Case), FIRST_CASE) in Moves(STRUCTURAL, FALL_BODY, Focus(Start(FALL_BODY)))
  {
    hide Focus;
    assert Focus(Start(FALL_BODY)) == Run(FALL_BODY[0], NO_LABEL, AFTER_FALL) by { FallFocus(); }
    CaseMove(FALLING, 2, NO_LABEL, true, AFTER_FALL, 0);
    assert CaseMoves(FALLING, 2, NO_LABEL, true, AFTER_FALL)[0] == Move(Jump(EdgeKind.Case), FIRST_CASE);
  }

  lemma FallFocus()
    ensures Focus(Start(FALL_BODY)) == Run(FALL_BODY[0], NO_LABEL, AFTER_FALL)
  {
    assert FALL_BODY[1..] == [];
  }

  lemma FallGoesOn()
    ensures Move(Jump(EdgeKind.Fallthrough), SECOND_CASE) in Moves(STRUCTURAL, FALL_BODY, Focus(FIRST_CASE))
  {
    assert FALLING[1..][1..] == [] && FALLING[1..][0] == FALLING[1];
    var k := Seq(FALLING[0].body[1..], FIRST_CASE.k);
    assert Focus(FIRST_CASE) == Run(FallthroughStmt(7), NO_LABEL, k);
    assert FallTo(k) == FallTo(FIRST_CASE.k) == Some(SECOND_CASE);
    assert Moves(STRUCTURAL, FALL_BODY, Focus(FIRST_CASE)) == [Move(Jump(EdgeKind.Fallthrough), SECOND_CASE)];
  }

  lemma FallEmits()
    ensures Move(Event.Emit(1), SECOND_DONE) in Moves(STRUCTURAL, FALL_BODY, Focus(SECOND_CASE))
  {
    assert FALLING[1].body[1..] == [];
    assert Focus(SECOND_CASE) == Run(Opaque(1), NO_LABEL, SECOND_DONE);
  }

  lemma FallRuns()
    ensures Executes(STRUCTURAL, FALL_BODY, Start(FALL_BODY), FALL_EVENTS, SECOND_DONE)
  {
    hide Moves, Focus;
    FallEnters();
    FallGoesOn();
    FallEmits();
    Then(FALL_BODY, SECOND_CASE, Move(Event.Emit(1), SECOND_DONE), [], SECOND_DONE);
    Then(FALL_BODY, FIRST_CASE, Move(Jump(EdgeKind.Fallthrough), SECOND_CASE), [Event.Emit(1)], SECOND_DONE);
    Then(FALL_BODY, Start(FALL_BODY), Move(Jump(EdgeKind.Case), FIRST_CASE),
      [Jump(EdgeKind.Fallthrough), Event.Emit(1)], SECOND_DONE);
    assert [Event.Emit(1)] + [] == [Event.Emit(1)];
    assert FALL_EVENTS == [Jump(EdgeKind.Case)] + ([Jump(EdgeKind.Fallthrough)] + [Event.Emit(1)]);
  }

  lemma Then(body: seq<Stmt>, c: Kont, m: Move, events: seq<Event>, d: Kont)
    requires m in Moves(STRUCTURAL, body, Focus(c)) && Executes(STRUCTURAL, body, m.next, events, d)
    ensures Executes(STRUCTURAL, body, c, [m.event] + events, d)
  {
    hide Moves, Focus;
    assert ([m.event] + events)[1..] == events;
  }

  // A walk cannot show an event no move from here shows.
  lemma Stuck(g: CFG, at: Loc, events: seq<Event>, to: Loc)
    requires events != [] && forall m :: m in GraphMoves(g, at) ==> m.event != events[0]
    ensures !Walks(g, at, events, to)
  {
    hide GraphMoves;
  }

  lemma FallWalks(g: CFG, to: Loc)
    requires FallStage(g.blocks, 2)
    ensures !Walks(g, BEGINNING, FALL_EVENTS, to)
  {
    assert GraphMoves(g, BEGINNING) == [
      GraphMove(Jump(Normal), Loc(2, 0)), GraphMove(Jump(EdgeKind.Case), Loc(3, 0)),
        GraphMove(Jump(EdgeKind.Case), Loc(4, 0))];
    assert GraphMoves(g, Loc(3, 0)) == [GraphMove(Jump(Normal), Loc(2, 0))];
    assert GraphMoves(g, Loc(4, 0)) == [GraphMove(Event.Emit(1), Loc(4, 1))];
    forall m | m in GraphMoves(g, BEGINNING) && m.event == FALL_EVENTS[0]
      ensures !Walks(g, m.next, FALL_EVENTS[1..], to) {
      Stuck(g, m.next, FALL_EVENTS[1..], to);
    }
  }

  /****** the blank label twice ******/

  // _: return; _: statement 2
  const BLANK_BODY: seq<Stmt> := [Labeled("_", ReturnStmt(1, [])), Labeled("_", Opaque(2))]

  const BLANK_EVENTS: seq<Event> := [Jump(Normal), Event.Emit(1), Jump(Return)]

  lemma BlankBlocks()
    ensures Unmoved(Build(BLANK_BODY, STRUCTURAL).blocks, [1, 2])
  {
    hide BlocksOk, Unmoved, EnterLabel, Building.Emit, JumpTo, Begin, Build;
    BlankBegins();
    var b := Begin(BLANK_BODY);
    var d := JumpTo(Building.Emit(EnterLabel(b, "_"), 1), EXIT, Return);
    BlankFirst(b, d);
    var e := Building.Emit(EnterLabel(d, "_"), 2);
    BlankSecond(d, e, JumpTo(e, EXIT, Normal));
    BlankCompiles(b, d, e);
    assert Build(BLANK_BODY, STRUCTURAL) == JumpTo(e, EXIT, Normal) by { BlankBuilds(b, e); }
  }

  lemma BlankBuilds(b: State, e: State)
    requires b == Begin(BLANK_BODY) && Inv(e) && CompileList(b, BLANK_BODY, STRUCTURAL) == e
    ensures Build(BLANK_BODY, STRUCTURAL) == JumpTo(e, EXIT, Normal)
  {
    hide BlocksOk, CompileList, JumpTo, Begin;
  }

  lemma BlankCompiles(b: State, d: State, e: State)
    requires Inv(b) && Inv(d) && d == JumpTo(Building.Emit(EnterLabel(b, "_"), 1), EXIT, Return)
    requires e == Building.Emit(EnterLabel(d, "_"), 2)
    ensures CompileList(b, BLANK_BODY, STRUCTURAL) == e
  {
    hide BlocksOk, EnterLabel, Building.Emit, JumpTo, Compile, CompileList;
    BlankFirstStmt(b);
    BlankSecondStmt(d);
    TwoStmts(b, d, e, BLANK_BODY, STRUCTURAL);
  }

  lemma BlankFirstStmt(b: State)
    requires Inv(b)
    ensures Compile(b, BLANK_BODY[0], NO_LABEL, STRUCTURAL) ==
      JumpTo(Building.Emit(EnterLabel(b, "_"), 1), EXIT, Return)
  {
    hide BlocksOk, EnterLabel, Building.Emit, JumpTo, RecordAll;
    ReturnCompiles(EnterLabel(b, "_"), 1, "_");
    LabelCompiles(b, "_", ReturnStmt(1, []));
  }

  lemma ReturnCompiles(st: State, id: Instr, l: Label)
    requires Inv(st)
    ensures Compile(st, ReturnStmt(id, []), l, STRUCTURAL) == JumpTo(Building.Emit(st, id), EXIT, Return)
  {
    hide BlocksOk, Building.Emit, JumpTo;
    assert RecordAll(st, []) == st;
  }

  lemma LabelCompiles(st: State, m: Label, s: Stmt)
    requires Inv(st)
    ensures Compile(st, Labeled(m, s), NO_LABEL, STRUCTURAL) == Compile(EnterLabel(st, m), s, m, STRUCTURAL)
  {
    hide BlocksOk, EnterLabel, Building.Emit, JumpTo, RecordAll, SimpleStep, CompileList, CompileIf, CompileLoop,
      CompileSwitch, CompileSelect;
  }

  lemma BlankSecondStmt(d: State)
    requires Inv(d)
    ensures Compile(d, BLANK_BODY[1], NO_LABEL, STRUCTURAL) == Building.Emit(EnterLabel(d, "_"), 2)
  {
    hide BlocksOk, EnterLabel, Building.Emit;
    assert Compile(EnterLabel(d, "_"), Opaque(2), "_", STRUCTURAL) == Building.Emit(EnterLabel(d, "_"), 2);
  }

  lemma TwoStmts(b: State, d: State, e: State, list: seq<Stmt>, trust: Instr -> bool)
    requires Inv(b) && Inv(d) && |list| == 2
    requires Compile(b, list[0], NO_LABEL, trust) == d && Compile(d, list[1], NO_LABEL, trust) == e
    ensures CompileList(b, list, trust) == e
  {
    hide BlocksOk, Compile;
    assert list[1..][1..] == [] && list[1..][0] == list[1];
    assert CompileList(e, [], trust) == e && CompileList(d, list[1..], trust) == e;
  }

  ghost predicate Unmoved(bs: seq<BasicBlock>, ids: seq<Instr>) {
    |bs| == 4 && bs[0].instrs == [] && bs[0].succs == [Edge(0, 3, Normal)] && bs[3].instrs == ids
  }

  // Two blank labels get two blocks, and the name stands for the second.
  lemma TwoBlankLabels(f: State)
    requires f == Fresh()
    ensures var b := AllocateLabels(f, ["_", "_"]);
      && |b.blocks| == 4 && b.labels == map["_" := 3] && b.current == Some(0)
      && forall i :: 0 <= i < 4 ==> b.blocks[i].instrs == [] && b.blocks[i].succs == []
  {
    hide BlocksOk;
    var a := NewBlock(f).(labels := f.labels["_" := 2]);
    var b := NewBlock(a).(labels := a.labels["_" := 3]);
    assert ["_", "_"][1..] == ["_"] && ["_"][1..] == [];
    AllocateStep(f, ["_", "_"]);
    AllocateStep(a, ["_"]);
    assert AllocateLabels(b, []) == b;
    assert a.labels["_" := 3] == map["_" := 3];
  }

  lemma BlankBegins()
    ensures var b := Begin(BLANK_BODY);
      && |b.blocks| == 4 && b.labels == map["_" := 3] && b.current == Some(0)
      && b.blocks[0].instrs == [] && b.blocks[0].succs == [] && b.blocks[3].instrs == []
  {
    hide BlocksOk, AllocateLabels;
    assert LabelsOfList(BLANK_BODY) == ["_", "_"] by {
      assert LabelsOfList(BLANK_BODY[1..]) == ["_"] by { assert BLANK_BODY[1..][1..] == []; }
    }
    TwoBlankLabels(Fresh());
  }

  lemma BlankFirst(b: State, d: State)
    requires Inv(b) && |b.blocks| == 4 && b.labels == map["_" := 3] && b.current == Some(0)
    requires b.blocks[0].instrs == [] && b.blocks[0].succs == [] && b.blocks[3].instrs == []
    requires d == JumpTo(Building.Emit(EnterLabel(b, "_"), 1), EXIT, Return)
    ensures Unmoved(d.blocks, [1]) && d.labels == b.labels && d.current == None
  {
    hide BlocksOk;
  }

  lemma BlankSecond(d: State, e: State, r: State)
    requires Inv(d) && Unmoved(d.blocks, [1]) && d.labels == map["_" := 3] && d.current == None
    requires e == Building.Emit(EnterLabel(d, "_"), 2) && r == JumpTo(e, EXIT, Normal)
    ensures Unmoved(r.blocks, [1, 2])
  {
    hide BlocksOk;
  }

  // The body returns after statement 1; in the graph statement 2 always follows it.
  lemma BlankLabelTwice()
    ensures Executes(STRUCTURAL, BLANK_BODY, Start(BLANK_BODY), BLANK_EVENTS, Done)
    ensures !exists to :: Walks(GraphFor(BLANK_BODY, STRUCTURAL), BEGINNING, BLANK_EVENTS, to)
  {
    BlankRuns();
    var g := GraphFor(BLANK_BODY, STRUCTURAL);
    BlankBlocks();
    forall to ensures !Walks(g, BEGINNING, BLANK_EVENTS, to) { BlankWalks(g, to); }
  }

  lemma BlankRuns()
    ensures Executes(STRUCTURAL, BLANK_BODY, Start(BLANK_BODY), BLANK_EVENTS, Done)
  {
    hide Executes;
    var rest := Seq(BLANK_BODY[1..], Leave(Normal));
    var c1 := Run(ReturnStmt(1, []), "_", rest);
    assert Focus(Start(BLANK_BODY)) == Run(BLANK_BODY[0], NO_LABEL, rest);
    Nothing(Done);
    Then(BLANK_BODY, Leave(Return), Move(Jump(Return), Done), [], Done);
    Then(BLANK_BODY, c1, Move(Event.Emit(1), Leave(Return)), [Jump(Return)] + [], Done);
    Then(BLANK_BODY, Start(BLANK_BODY), Move(Jump(Normal), c1), [Event.Emit(1)] + ([Jump(Return)] + []), Done);
    assert BLANK_EVENTS == [Jump(Normal)] + ([Event.Emit(1)] + ([Jump(Return)] + []));
  }

  lemma Nothing(c: Kont)
    ensures Executes(STRUCTURAL, BLANK_BODY, c, [], c)
  {}

  lemma BlankWalks(g: CFG, to: Loc)
    requires Unmoved(g.blocks, [1, 2])
    ensures !Walks(g, BEGINNING, BLANK_EVENTS, to)
  {
    assert GraphMoves(g, BEGINNING) == [GraphMove(Jump(Normal), Loc(3, 0))];
    assert GraphMoves(g, Loc(3, 0)) == [GraphMove(Event.Emit(1), Loc(3, 1))];
    assert GraphMoves(g, Loc(3, 1)) == [GraphMove(Event.Emit(2), Loc(3, 2))];
    assert BLANK_EVENTS[1..][1..][0] == Jump(Return);
    assert !Walks(g, Loc(3, 1), BLANK_EVENTS[1..][1..], to);
    assert !Walks(g, Loc(3, 0), BLANK_EVENTS[1..], to);
  }

  /****** When a clause is taken to fall through ******/

  // The language's rule: under its labels, the last non-empty statement is a fallthrough.
  predicate MeansToFall(body: seq<Stmt>) {
    body != [] &&
    if body[|body| - 1].Empty? then MeansToFall(body[..|body| - 1]) else Unlabelled(body[|body| - 1]).FallthroughStmt?
  }

  function Unlabelled(s: Stmt): Stmt {
    match s
    case Labeled(_, body) => Unlabelled(body)
    case _ => s
  }

  // The builder lets a clause fall through exactly when its last statement is its first bare
  // fallthrough.
  lemma {:induction false} FallsThroughIff(st: State, body: seq<Stmt>, trust: Instr -> bool)
    requires Inv(st)
    ensures CompileCase(st, body, trust).1 <==>
      Falls(body) && forall i :: 0 <= i < |body| - 1 ==> !body[i].FallthroughStmt?
    decreases body
  {
    hide BlocksOk, Compile;
    if body != [] && !body[0].FallthroughStmt? {
      FallsThroughIff(Compile(st, body[0], NO_LABEL, trust), body[1..], trust);
      var rest := body[1..];
      assert Falls(body) <==> Falls(rest);
      assert (forall i :: 0 <= i < |body| - 1 ==> !body[i].FallthroughStmt?) ==> forall i :: 0 <= i < |rest| - 1 ==>
        !rest[i].FallthroughStmt? by {
        forall i | 0 <= i < |rest| - 1 && (forall j :: 0 <= j < |body| - 1 ==> !body[j].FallthroughStmt?)
          ensures !rest[i].FallthroughStmt? {
          assert rest[i] == body[i + 1];
        }
      }
      forall i | 0 <= i < |body| - 1 && (forall j :: 0 <= j < |rest| - 1 ==> !rest[j].FallthroughStmt?)
        ensures !body[i].FallthroughStmt? {
        if i > 0 { assert body[i] == rest[i - 1]; }
      }
    }
  }

  // On a clause whose only bare fallthrough, if any, is its last non-empty statement, the
  // builder agrees with the language exactly when a clause that means to fall ends in the
  // bare keyword.
  lemma FallAgreesIff(st: State, body: seq<Stmt>, trust: Instr -> bool)
    requires Inv(st) && forall i :: 0 <= i < |body| - 1 && body[i].FallthroughStmt? ==>
      MeansToFall(body) && forall j :: i < j < |body| ==> body[j].Empty?
    ensures (CompileCase(st, body, trust).1 <==> MeansToFall(body)) <==>
      (MeansToFall(body) ==> body[|body| - 1].FallthroughStmt?)
  {
    hide BlocksOk, CompileCase;
    FallsThroughIff(st, body, trust);
    if Falls(body) {
      forall i | 0 <= i < |body| - 1 ensures !body[i].FallthroughStmt? { assert !body[|body| - 1].Empty?; }
    }
  }

  // What a labelled fallthrough shows when it runs.
  function FallEvents(s: Stmt): seq<Event> {
    match s
    case Labeled(_, body) => [Jump(Normal)] + FallEvents(body)
    case _ => [Jump(EdgeKind.Fallthrough)]
  }

  lemma {:induction false} LabelledFalls(trust: Instr -> bool, body: seq<Stmt>, s: Stmt, l: Label, k: Kont, next: Kont)
    requires Unlabelled(s).FallthroughStmt? && FallTo(k) == Some(next)
    ensures Executes(trust, body, Run(s, l, k), FallEvents(s), next)
  {
    var c := Run(s, l, k);
    assert Focus(c) == c;
    if s.Labeled? {
      var inner := s.body;
      LabelledFalls(trust, body, inner, s.name, k, next);
      assert FallEvents(s)[1..] == FallEvents(inner);
      assert Move(Jump(Normal), Run(inner, s.name, k)) in Moves(trust, body, c);
    } else {
      assert FallEvents(s)[1..] == [] && Executes(trust, body, next, [], next);
      assert Move(Jump(EdgeKind.Fallthrough), next) in Moves(trust, body, c);
    }
  }

  // Run from its last non-empty statement on, a clause that means to fall enters the next one.
  lemma {:induction false} ClauseFalls(trust: Instr -> bool, body: seq<Stmt>, clause: seq<Stmt>, l: Label,
      rest: seq<Clause>, k: Kont) returns (p: nat)
    requires MeansToFall(clause) && rest != []
    ensures p < |clause| && Unlabelled(clause[p]).FallthroughStmt?
    ensures forall i :: p < i < |clause| ==> clause[i].Empty?
    ensures Executes(trust, body, Seq(clause[p..], ClauseEnd(l, rest, k)), FallEvents(clause[p]),
      Seq(rest[0].body, ClauseEnd(l, rest[1..], k)))
  {
    p := LastStmt(clause);
    var after, next := Seq(clause[p + 1..], ClauseEnd(l, rest, k)), Seq(rest[0].body, ClauseEnd(l, rest[1..], k));
    assert FallTo(after) == FallTo(after.k) == Some(next);
    LabelledFalls(trust, body, clause[p], NO_LABEL, after, next);
    assert clause[p..][0] == clause[p] && clause[p..][1..] == clause[p + 1..];
    SameFocus(trust, body, Seq(clause[p..], ClauseEnd(l, rest, k)), Run(clause[p], NO_LABEL, after),
      FallEvents(clause[p]), next);
  }

  lemma {:induction false} LastStmt(clause: seq<Stmt>) returns (p: nat)
    requires MeansToFall(clause)
    ensures p < |clause| && Unlabelled(clause[p]).FallthroughStmt?
    ensures forall i :: p < i < |clause| ==> clause[i].Empty?
    decreases |clause|
  {
    p := |clause| - 1;
    if clause[p].Empty? { p := LastStmt(clause[..p]); }
  }

  lemma SameFocus(trust: Instr -> bool, body: seq<Stmt>, c: Kont, d: Kont, events: seq<Event>, e: Kont)
    requires Focus(c) == Focus(d) && events != [] && Executes(trust, body, d, events, e)
    ensures Executes(trust, body, c, events, e)
  {
    hide Moves, Focus;
  }

  // In the graph, control that runs off the end of clause i enters the next clause's block
  // exactly if the builder takes the clause to fall through; otherwise it leaves the switch.
  lemma ClauseLeaves(st: State, clauses: seq<Clause>, i: nat, l: Label, trust: Instr -> bool)
    requires Ready(st, LabelsOfClauses(clauses, |clauses|)) && i + 1 < |clauses|
    ensures var e := SwitchCaseEnd(st, clauses, i, l, trust);
      if CompileCase(SwitchCase(st, clauses, i, l, trust), clauses[i].body, trust).1
      then Exits(e, CompileSwitch(st, clauses, l, trust), SwitchBlock(st, i + 1), EdgeKind.Fallthrough)
      else Exits(e, CompileSwitch(st, clauses, l, trust), Settled(st), Normal)
  {
    hide BlocksOk, NoRepeats, Later, Exits, EndsWith, CompileSwitch, CompileCase, SwitchAt, CaseEdges, NoMatch, Instrs,
      Untouched, Resumes, Compiled;
    SwitchCompiled(st, clauses, l, trust);
    var r := CompileSwitch(st, clauses, l, trust);
    assert SwitchClauseShape(st, clauses, i, l, trust, r);
    CaseSteps(SwitchCase(st, clauses, i, l, trust), clauses[i].body, trust);
  }
}
