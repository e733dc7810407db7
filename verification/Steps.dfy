/**
 Compiling any statement touches only its own blocks.
 */
module Steps {
  import opened Wrappers
  import opened Graph
  import opened Syntax
  import opened Building
  import opened Closing
  import opened Shapes

  // A clause's statements are compiled as a list, up to a closing fallthrough.
  lemma {:induction false} CaseIsList(st: State, body: seq<Stmt>, trust: Instr -> bool, mayFall: bool)
    requires Inv(st) && FallsPlacedInClause(body, mayFall)
    ensures CompileCase(st, body, trust) == (CompileList(st, Strip(body), trust), Falls(body))
    ensures LabelsOfList(body) == LabelsOfList(Strip(body)) && FallsPlacedIn(Strip(body))
      && FallsOut(body) == Falls(body)
    decreases body
  {
    hide BlocksOk, Compile;
    if body != [] && !body[0].FallthroughStmt? {
      var rest := body[1..];
      var t := Compile(st, body[0], NO_LABEL, trust);
      assert Falls(rest) == Falls(body);
      assert forall i :: 0 <= i < |rest| ==> rest[i] == body[i + 1];
      CaseIsList(t, rest, trust, mayFall);
      assert Strip(body)[0] == body[0] && Strip(body)[1..] == Strip(rest);
    } else if body != [] {
      assert Strip(body) == [];
      assert body[1..] == [] && LabelsOfList(body[1..]) == [];
    }
  }

  lemma BranchSteps(st: State, target: Option<BlockId>, kind: EdgeKind)
    requires Base(st) && (target.Some? ==> Target(|st.blocks|, target.value))
    ensures Step(st, Branch(st, target, kind), Cur(st)) && Live(Branch(st, target, kind))
      && Inv(Branch(st, target, kind))
    ensures st.current.Some? ==>
      EndsWith(Branch(st, target, kind), st.current.value, st.blocks[st.current.value].instrs,
      if target.Some? then [Edge(st.current.value, target.value, kind)] else [])
  {
    hide BlocksOk, Step, JumpTo, Ensure, Abandon;
    if target.Some? {
      EnsureSteps(st);
      var e := Ensure(st);
      StepBase(st, e, Cur(st));
      JumpSteps(e, target.value, kind);
      StepTrans(st, e, Branch(st, target, kind), Cur(st), Cur(e)) by { StepCurrent(st, e, Cur(st)); }
    } else {
      AbandonSteps(st);
    }
  }

  lemma ReturnSteps(st: State, id: Instr, calls: seq<CallId>)
    requires Base(st)
    ensures var r := JumpTo(Emit(RecordAll(st, calls), id), EXIT, Return);
      Compiled(st, r, []) && EndsWith(r, Head(st), Instrs(st) + [id], [Edge(Head(st), EXIT, Return)])
  {
    hide BlocksOk, Step, JumpTo, Emit, RecordAll;
    RecordAllSteps(st, calls);
    var s0 := RecordAll(st, calls);
    StepBase(st, s0, Cur(st));
    EnsureSteps(st);
    EmitSteps(s0, id);
    var s := Emit(s0, id);
    StepBase(s0, s, Cur(s0));
    StepTrans(st, s0, s, Cur(st), Cur(s0)) by { StepCurrent(st, s0, Cur(st)); }
    JumpSteps(s, EXIT, Return);
    var r := JumpTo(s, EXIT, Return);
    StepTrans(st, s, r, Cur(st), Cur(s)) by { StepCurrent(st, s, Cur(st)); }
    StepMore(st, r, Cur(st), Own(st, []));
  }

  // A statement that emits one instruction, after recording at most one call.
  lemma EmitCompiled(st: State, id: Instr)
    requires Base(st)
    ensures Compiled(st, Emit(st, id), [])
    ensures Emit(st, id).current == Some(Head(st)) && Head(st) < |Emit(st, id).blocks|
    ensures Emit(st, id).blocks[Head(st)].instrs == Instrs(st) + [id]
  {
    hide BlocksOk, Step, Emit;
    EmitSteps(st, id);
    EmitInv(st, id);
    StepMore(st, Emit(st, id), Cur(st), Own(st, []));
  }

  lemma EmitInv(st: State, id: Instr)
    requires Inv(st)
    ensures Inv(Emit(st, id)) && Head(st) < |Emit(st, id).blocks|
  {
    hide BlocksOk;
  }

  lemma RecordedEmit(st: State, call: CallId, async: bool, id: Instr)
    requires Base(st)
    ensures var r := Emit(Record(st, call, async), id);
      Compiled(st, r, []) && r.current == Some(Head(st)) && Head(st) < |r.blocks|
        && r.blocks[Head(st)].instrs == Instrs(st) + [id]
  {
    hide BlocksOk, Step, Emit, Record;
    RecordSteps(st, call, async);
    var s := Record(st, call, async);
    StepBase(st, s, Cur(st));
    EmitCompiled(s, id);
    var r := Emit(s, id);
    StepTrans(st, s, r, Cur(st), Own(s, [])) by { StepCurrent(st, s, Cur(st)); }
    StepMore(st, r, Cur(st), Own(st, []));
  }

  lemma {:induction false} SpecsCompiled(st: State, specs: seq<Simple>, trust: Instr -> bool)
    requires Ready(st, [])
    ensures Compiled(st, SpecsStep(st, specs, trust), [])
    decreases specs
  {
    hide BlocksOk, Step, SimpleStep;
    if specs == [] {
      StepRefl(st, Own(st, []));
    } else {
      SimpleSteps(st, specs[0], trust);
      var s := SimpleStep(st, specs[0], trust);
      var none: seq<Label> := [];
      assert none + none == none;
      ReadyNext(st, s, [], []);
      SpecsCompiled(s, specs[1..], trust);
      CompiledTrans(st, s, SpecsStep(st, specs, trust), [], []);
    }
  }

  // An initialiser, compiled before code with labels ls.
  lemma InitCompiled(st: State, init: Option<Simple>, ls: seq<Label>, trust: Instr -> bool)
    requires Ready(st, ls)
    ensures Compiled(st, InitStep(st, init, trust), []) && Ready(InitStep(st, init, trust), ls)
  {
    hide BlocksOk, Step, SimpleStep;
    assert [] + ls == ls;
    if init.Some? { SimpleSteps(st, init.value, trust); } else { StepRefl(st, Own(st, [])); }
    ReadyNext(st, InitStep(st, init, trust), [], ls);
  }

  lemma AfterInit(st: State, init: Option<Simple>, ls: seq<Label>, r: State, trust: Instr -> bool)
    requires Ready(st, ls) && Compiled(InitStep(st, init, trust), r, ls)
    ensures Compiled(st, r, ls)
  {
    hide BlocksOk, Step, InitStep;
    InitCompiled(st, init, ls, trust);
    assert [] + ls == ls;
    CompiledTrans(st, InitStep(st, init, trust), r, [], ls);
  }

  lemma {:induction false} CompileSteps(st: State, s: Stmt, l: Label, trust: Instr -> bool)
    requires Ready(st, Labels(s))
    ensures Compiled(st, Compile(st, s, l, trust), Labels(s))
    decreases s, 1
  {
    hide BlocksOk, Step, NoRepeats, InitStep, CompileIf, CompileLoop, CompileSwitch, CompileSelect, Branch, EnterLabel,
      SpecsStep, Emit, Record, JumpTo, SimpleStep, Live, OpenInRange;
    var r := Compile(st, s, l, trust);
    ReadyBase(st, Labels(s));
    match s
    case Block(list) => ListSteps(st, list, trust);
    case Labeled(m, body) =>
      EnterLabelSteps(st, m, Labels(body));
      var t := EnterLabel(st, m);
      CompileSteps(t, body, m, trust);
      LabeledCompiled(st, t, r, m, Labels(body));
    case Exec(x) => SimpleSteps(st, x, trust);
    case VarDecl(specs) => SpecsCompiled(st, specs, trust);
    case Opaque(id) => EmitCompiled(st, id);
    case GoCall(id, call) => RecordedEmit(st, call, true, id);
    case DeferCall(id, call) => RecordedEmit(st, call, false, id);
    case Empty => StepRefl(st, Own(st, []));
    case If(init, cond, thn, els) =>
      InitCompiled(st, init, Labels(s), trust);
      IfCompiled(InitStep(st, init, trust), s, trust);
      AfterInit(st, init, Labels(s), r, trust);
    case For(init, test, post, loop) =>
      InitCompiled(st, init, Labels(s), trust);
      LoopCompiled(InitStep(st, init, trust), test, post, loop, l, trust);
      AfterInit(st, init, Labels(s), r, trust);
    case Range(loop) => LoopCompiled(st, Some(Unknown), None, loop, l, trust);
    case Switch(init, clauses) =>
      InitCompiled(st, init, Labels(s), trust);
      SwitchCompiled(InitStep(st, init, trust), clauses, l, trust);
      AfterInit(st, init, Labels(s), r, trust);
    case Select(clauses) => SelectCompiled(st, clauses, l, trust);
    case ReturnStmt(id, calls) => ReturnSteps(st, id, calls);
    case BreakStmt(m) => BranchCompiled(st, ResolveBreak(st.frames, m), EdgeKind.Break);
    case ContinueStmt(m) => BranchCompiled(st, ResolveContinue(st.frames, m), EdgeKind.Continue);
    case GotoStmt(m) => BranchCompiled(st, if m in st.labels then Some(st.labels[m]) else None, EdgeKind.Goto);
    case FallthroughStmt(id) => EmitCompiled(st, id);
  }

  lemma BranchCompiled(st: State, target: Option<BlockId>, kind: EdgeKind)
    requires Base(st) && (target.Some? ==> Target(|st.blocks|, target.value))
    ensures Compiled(st, Branch(st, target, kind), [])
  {
    hide BlocksOk, Step, Branch;
    BranchSteps(st, target, kind);
    StepMore(st, Branch(st, target, kind), Cur(st), Own(st, []));
  }

  lemma LabeledCompiled(st: State, t: State, r: State, m: Label, ls: seq<Label>)
    requires Ready(st, [m] + ls) && Step(st, t, Own(st, [m])) && Ready(t, ls) && t.current == Some(st.labels[m])
      && Compiled(t, r, ls)
    ensures Compiled(st, r, [m] + ls)
  {
    hide BlocksOk, Step, NoRepeats;
    StepBase(st, t, Own(st, [m]));
    var X := Own(st, [m] + ls);
    assert m in [m] + ls;
    StepMore(st, t, Own(st, [m]), X);
    StepTrans(st, t, r, X, Own(t, ls));
  }

  lemma {:induction false} ListSteps(st: State, list: seq<Stmt>, trust: Instr -> bool)
    requires Ready(st, LabelsOfList(list))
    ensures Compiled(st, CompileList(st, list, trust), LabelsOfList(list))
    decreases list, 0
  {
    hide BlocksOk, Step, NoRepeats, Compile, Live, OpenInRange;
    if list == [] {
      ReadyBase(st, []);
      StepRefl(st, Own(st, []));
    } else {
      var ls, ms := Labels(list[0]), LabelsOfList(list[1..]);
      ReadyFirst(st, ls, ms);
      CompileSteps(st, list[0], NO_LABEL, trust);
      var s := Compile(st, list[0], NO_LABEL, trust);
      ReadyNext(st, s, ls, ms);
      ListSteps(s, list[1..], trust);
      CompiledTrans(st, s, CompileList(st, list, trust), ls, ms);
    }
  }

  // A clause is compiled up to its first bare fallthrough.
  lemma {:induction false} CaseSteps(st: State, body: seq<Stmt>, trust: Instr -> bool)
    requires Ready(st, LabelsOfList(body))
    ensures Compiled(st, CompileCase(st, body, trust).0, LabelsOfList(body))
    ensures CompileCase(st, body, trust).1 == FallsOut(body)
    decreases body, 0
  {
    hide BlocksOk, Step, NoRepeats, Compile, Live, OpenInRange;
    if body == [] || body[0].FallthroughStmt? {
      ReadyBase(st, LabelsOfList(body));
      StepRefl(st, Own(st, LabelsOfList(body)));
    } else {
      var ls, ms := Labels(body[0]), LabelsOfList(body[1..]);
      ReadyFirst(st, ls, ms);
      CompileSteps(st, body[0], NO_LABEL, trust);
      var s := Compile(st, body[0], NO_LABEL, trust);
      ReadyNext(st, s, ls, ms);
      CaseSteps(s, body[1..], trust);
      CompiledTrans(st, s, CompileCase(st, body, trust).0, ls, ms);
    }
  }

  lemma {:induction false} IfCompiled(st: State, s: Stmt, trust: Instr -> bool)
    requires s.If? && Ready(st, Labels(s))
    ensures Compiled(st, CompileIf(st, s, trust), Labels(s)) && IfShape(st, s, trust, CompileIf(st, s, trust))
    ensures Resumes(CompileIf(st, s, trust), Settled(st) + 1)
    decreases s, 0
  {
    hide BlocksOk, Step, NoRepeats, IfThen, IfElse, CompileIf, IfShape, Live, OpenInRange;
    if Ready(IfThen(st, s.cond), LabelsOfList(s.thn)) { ListSteps(IfThen(st, s.cond), s.thn, trust); }
    if s.els.Some? {
      if Ready(ElseStart(st, s, trust), Labels(s.els.value)) {
        CompileSteps(ElseStart(st, s, trust), s.els.value, NO_LABEL, trust);
      }
    }
    IfSteps(st, s, trust);
  }

  lemma {:induction false} LoopCompiled(st: State, test: Option<Cond>, post: Option<Simple>, loop: seq<Stmt>, l: Label,
      trust: Instr -> bool)
    requires Ready(st, LabelsOfList(loop))
    ensures Compiled(st, CompileLoop(st, test, post, loop, l, trust), LabelsOfList(loop))
    ensures LoopShape(st, test, post, loop, l, trust, CompileLoop(st, test, post, loop, l, trust))
    ensures Resumes(CompileLoop(st, test, post, loop, l, trust), LoopFirst(st) + 1)
    decreases loop, 1
  {
    hide BlocksOk, Step, NoRepeats, LoopBody, CompileLoop, LoopShape, Live, OpenInRange;
    if Ready(LoopBody(st, test, post.Some?, l), LabelsOfList(loop)) {
      ListSteps(LoopBody(st, test, post.Some?, l), loop, trust);
    }
    LoopSteps(st, test, post, loop, l, trust);
  }

  lemma {:induction false} SwitchCompiled(st: State, clauses: seq<Clause>, l: Label, trust: Instr -> bool)
    requires Ready(st, LabelsOfClauses(clauses, |clauses|))
    ensures Compiled(st, CompileSwitch(st, clauses, l, trust), LabelsOfClauses(clauses, |clauses|))
    ensures SwitchShape(st, clauses, l, trust, CompileSwitch(st, clauses, l, trust))
    ensures Resumes(CompileSwitch(st, clauses, l, trust), Settled(st))
    decreases clauses, 0
  {
    hide BlocksOk, Step, NoRepeats, SwitchCase, CompileSwitch, SwitchShape, Live, OpenInRange, CompileCase;
    forall i | 0 <= i < |clauses| && Ready(SwitchCase(st, clauses, i, l, trust), LabelsOfList(clauses[i].body))
      ensures SwitchBodyDone(st, clauses, i, l, trust)
    {
      var e, body := SwitchCase(st, clauses, i, l, trust), clauses[i].body;
      CaseSteps(e, body, trust);
    }
    SwitchWhole(st, clauses, l, trust);
  }

  lemma {:induction false} SelectCompiled(st: State, clauses: seq<Clause>, l: Label, trust: Instr -> bool)
    requires Ready(st, LabelsOfClauses(clauses, |clauses|))
    ensures Compiled(st, CompileSelect(st, clauses, l, trust), LabelsOfClauses(clauses, |clauses|))
    ensures SelectShape(st, clauses, l, trust, CompileSelect(st, clauses, l, trust))
    ensures Resumes(CompileSelect(st, clauses, l, trust), Settled(st))
    decreases clauses, 0
  {
    hide BlocksOk, Step, NoRepeats, SelectCase, CompileSelect, SelectShape, Live, OpenInRange;
    forall i | 0 <= i < |clauses| && Ready(SelectCase(st, clauses, i, l, trust), LabelsOfList(clauses[i].body))
      ensures SelectBodyDone(st, clauses, i, l, trust)
    {
      ListSteps(SelectCase(st, clauses, i, l, trust), clauses[i].body, trust);
    }
    SelectWhole(st, clauses, l, trust);
  }
}
