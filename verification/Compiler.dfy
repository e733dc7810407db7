/**
 The builder itself: an object whose fields every statement method updates in place.

 Each method is proved to do what its specification in module Building says, so the graph
 Build returns is the one module Correctness is about.
 */
module Compiler {
  import opened Wrappers
  import opened Graph
  import opened Syntax
  import opened Building
  import B = Building

  class Builder {
    var blocks: seq<BasicBlock>
    var current: Option<BlockId>
    var frames: seq<Frame>
    var labels: map<Label, BlockId>
    var callSites: map<CallId, CallSite>
    const exit: BlockId
    const trusted: Instr -> bool
    ghost var open: set<BlockId>

    ghost function Now(): State
      reads this
    {
      State(blocks, current, frames, labels, callSites, open)
    }

    ghost predicate Valid()
      reads this
    {
      Inv(Now()) && exit == EXIT
    }

    constructor (trusted: Instr -> bool)
      ensures Valid() && Now() == Fresh() && this.trusted == trusted
    {
      blocks := [BasicBlock(ENTRY, [], [], []), BasicBlock(EXIT, [], [], [])];
      current, frames, labels, callSites := Some(ENTRY), [], map[], map[];
      exit, this.trusted, open := EXIT, trusted, {ENTRY};
      new;
      assert Now() == Fresh();
    }

    /****** Elementary steps ******/

    method NewBlock() returns (id: BlockId)
      requires Valid()
      modifies this
      ensures Valid() && id == |old(blocks)| && Now() == B.NewBlock(old(Now()))
    {
      hide BlocksOk;
      id := |blocks|;
      blocks := blocks + [BasicBlock(id, [], [], [])];
      open := open + {id};
      assert Now() == B.NewBlock(old(Now()));
    }

    method AddEdge(from: BlockId, to: BlockId, kind: EdgeKind)
      requires Valid() && from < |blocks| && from != EXIT && Target(|blocks|, to)
      modifies this
      ensures Valid() && Now() == B.AddEdge(old(Now()), from, to, kind)
    {
      hide BlocksOk;
      blocks := blocks[from := blocks[from].(succs := blocks[from].succs + [Edge(from, to, kind)])];
      blocks := blocks[to := blocks[to].(preds := blocks[to].preds + [from])];
      assert Now() == B.AddEdge(old(Now()), from, to, kind);
    }

    // The edge out of a piece of code that has come to its end, if it can.
    method Leave(to: BlockId, kind: EdgeKind)
      requires Valid() && Target(|blocks|, to)
      modifies this
      ensures Valid() && Now() == JumpTo(old(Now()), to, kind).(current := old(current))
    {
      hide BlocksOk;
      if current.Some? {
        AddEdge(current.value, to, kind);
        open := open - {current.value};
      }
    }

    method EnsureCurrent() returns (b: BlockId)
      requires Valid()
      modifies this
      ensures Valid() && Now() == Ensure(old(Now())) && current == Some(b)
    {
      hide BlocksOk;
      if current.None? {
        b := NewBlock();
        current := Some(b);
      }
      b := current.value;
    }

    method Emit(id: Instr)
      requires Valid()
      modifies this
      ensures Valid() && Now() == B.Emit(old(Now()), id) && current.Some?
    {
      hide BlocksOk, Ensure;
      var b := EnsureCurrent();
      blocks := blocks[b := blocks[b].(instrs := blocks[b].instrs + [id])];
      assert Now() == B.Emit(old(Now()), id);
    }

    method RecordCall(call: CallId)
      requires Valid()
      modifies this
      ensures Valid() && Now() == Record(old(Now()), call, false) && call in callSites
    {
      hide BlocksOk, Ensure;
      var b := EnsureCurrent();
      callSites := callSites[call := CallSite(b, |blocks[b].instrs|, false)];
      assert Now() == Record(old(Now()), call, false);
    }

    method RecordCalls(calls: seq<CallId>)
      requires Valid()
      modifies this
      ensures Valid() && Now() == RecordAll(old(Now()), calls)
    {
      hide BlocksOk, Record;
      for i := 0 to |calls|
        invariant Valid() && RecordAll(Now(), calls[i..]) == RecordAll(old(Now()), calls)
      {
        assert calls[i..][1..] == calls[i + 1..];
        RecordCall(calls[i]);
      }
      assert calls[|calls|..] == [];
    }

    method ResolveBreak(l: Label) returns (r: Option<BlockId>)
      ensures r == B.ResolveBreak(frames, l)
    {
      var i := |frames|;
      assert frames[..i] == frames;
      while i > 0
        invariant 0 <= i <= |frames| && B.ResolveBreak(frames[..i], l) == B.ResolveBreak(frames, l)
      {
        i := i - 1;
        assert frames[..i + 1][..i] == frames[..i];
        var f := frames[i];
        if l == NO_LABEL || f.name == l { return Some(f.breakTo); }
      }
      return None;
    }

    method ResolveContinue(l: Label) returns (r: Option<BlockId>)
      ensures r == B.ResolveContinue(frames, l)
    {
      var i := |frames|;
      assert frames[..i] == frames;
      while i > 0
        invariant 0 <= i <= |frames| && B.ResolveContinue(frames[..i], l) == B.ResolveContinue(frames, l)
      {
        i := i - 1;
        assert frames[..i + 1][..i] == frames[..i];
        var f := frames[i];
        if !f.isLoop { continue; }
        if l == NO_LABEL || f.name == l { return Some(f.continueTo); }
      }
      return None;
    }

    /****** Statements ******/

    method SimpleStmt(x: Simple)
      requires Valid()
      modifies this
      ensures Valid() && Now() == SimpleStep(old(Now()), x, trusted)
    {
      hide BlocksOk, Ensure, RecordAll, B.Emit, WithEdge;
      RecordCalls(x.calls);
      Emit(x.id);
      if x.panics {
        var b := EnsureCurrent();
        AddEdge(b, exit, Panic);
        current, open := None, open - {b};
        assert Now() == SimpleStep(old(Now()), x, trusted);
      } else if trusted(x.id) {
        var b := EnsureCurrent();
        var next := NewBlock();
        AddEdge(b, next, Normal);
        AddEdge(b, exit, TrustedStop);
        current, open := Some(next), open - {b};
        assert Now() == SimpleStep(old(Now()), x, trusted);
      }
    }

    method InitStmt(init: Option<Simple>)
      requires Valid()
      modifies this
      ensures Valid() && Now() == InitStep(old(Now()), init, trusted)
    {
      hide BlocksOk, SimpleStep;
      if init.Some? { SimpleStmt(init.value); }
    }

    method VarSpecs(specs: seq<Simple>)
      requires Valid()
      modifies this
      ensures Valid() && Now() == SpecsStep(old(Now()), specs, trusted)
    {
      hide BlocksOk, SimpleStep;
      for i := 0 to |specs|
        invariant Valid() && SpecsStep(Now(), specs[i..], trusted) == SpecsStep(old(Now()), specs, trusted)
      {
        assert specs[i..][1..] == specs[i + 1..];
        SimpleStmt(specs[i]);
      }
      assert specs[|specs|..] == [];
    }

    method StmtList(list: seq<Stmt>)
      requires Valid()
      modifies this
      ensures Valid() && Now() == CompileList(old(Now()), list, trusted)
      decreases list, 0
    {
      hide BlocksOk, Compile;
      for i := 0 to |list|
        invariant Valid() && CompileList(Now(), list[i..], trusted) == CompileList(old(Now()), list, trusted)
      {
        assert list[i..][1..] == list[i + 1..];
        Statement(list[i], NO_LABEL);
      }
      assert list[|list|..] == [];
    }

    method Statement(s: Stmt, l: Label)
      requires Valid()
      modifies this
      ensures Valid() && Now() == Compile(old(Now()), s, l, trusted)
      decreases s, 1
    {
      hide BlocksOk, SimpleStep, SpecsStep, InitStep, B.Emit, Record, RecordAll, CompileIf, CompileLoop, CompileSwitch,
        CompileSelect, CompileList, EnterLabel, Branch, Ensure, JumpTo, Inv;
      TargetsOk(Now());
      match s
      case Block(list) => StmtList(list);
      case Labeled(m, body) => LabelStmt(m); Statement(body, m);
      case Exec(x) => SimpleStmt(x);
      case VarDecl(specs) => VarSpecs(specs);
      case Opaque(id) => Emit(id);
      case GoCall(id, call) => GoStmt(id, call);
      case DeferCall(id, call) => RecordCall(call); Emit(id);
      case Empty =>
      case If(init, cond, thn, els) => InitStmt(init); IfStmt(s);
      case For(init, test, post, loop) => InitStmt(init); ForStmt(s, l);
      case Range(loop) => RangeStmt(s, l);
      case Switch(init, clauses) => InitStmt(init); SwitchStmt(clauses, l);
      case Select(clauses) => SelectStmt(clauses, l);
      case ReturnStmt(id, calls) => RecordCalls(calls); ReturnFrom(id);
      case BreakStmt(m) => var t := ResolveBreak(m); BranchStmt(t, EdgeKind.Break);
      case ContinueStmt(m) => var t := ResolveContinue(m); BranchStmt(t, EdgeKind.Continue);
      case GotoStmt(m) => BranchStmt(if m in labels then Some(labels[m]) else None, EdgeKind.Goto);
      case FallthroughStmt(id) => Emit(id);
    }

    method LabelStmt(m: Label)
      requires Valid()
      modifies this
      ensures Valid() && Now() == EnterLabel(old(Now()), m)
    {
      hide BlocksOk;
      if m !in labels {
        var b := NewBlock();
        labels := labels[m := b];
      }
      if current != Some(labels[m]) { Leave(labels[m], Normal); }
      current := Some(labels[m]);
    }

    method GoStmt(id: Instr, call: CallId)
      requires Valid()
      modifies this
      ensures Valid() && Now() == B.Emit(Record(old(Now()), call, true), id)
    {
      hide BlocksOk, B.Emit, Ensure;
      RecordCall(call);
      callSites := callSites[call := callSites[call].(async := true)];
      assert Now() == Record(old(Now()), call, true);
      Emit(id);
    }

    method ReturnFrom(id: Instr)
      requires Valid()
      modifies this
      ensures Valid() && Now() == JumpTo(B.Emit(old(Now()), id), EXIT, Return)
    {
      hide BlocksOk, B.Emit;
      Emit(id);
      var b := EnsureCurrent();
      AddEdge(b, exit, Return);
      current, open := None, open - {b};
    }

    // An unresolved target leaves the branch without an edge.
    method BranchStmt(target: Option<BlockId>, kind: EdgeKind)
      requires Valid() && (target.Some? ==> Target(|blocks|, target.value))
      modifies this
      ensures Valid() && Now() == Branch(old(Now()), target, kind)
    {
      hide BlocksOk;
      if target.Some? {
        var b := EnsureCurrent();
        AddEdge(b, target.value, kind);
      }
      if current.Some? { open := open - {current.value}; }
      current := None;
    }

    method IfStmt(s: Stmt)
      requires Valid() && s.If?
      modifies this
      ensures Valid() && Now() == CompileIf(old(Now()), s, trusted)
      decreases s, 0, 1
    {
      hide BlocksOk, Compile, CompileList, CompileIf, IfThen, IfElse, IfDone, JumpTo, Ensure, WithEdge, Inv;
      ghost var st := Now();
      HeadOk(st);
      var cond := EnsureCurrent();
      var thenBlk := NewBlock();
      var after := NewBlock();
      if Allows(s.cond, true) { AddEdge(cond, thenBlk, IfTrue); }
      IfThenIs(st, s.cond, Now());
      current := Some(thenBlk);
      StmtList(s.thn);
      ghost var thn := Now();
      Leave(after, Normal);
      if s.els.Some? {
        ElseBranch(s, cond, after, st, thn);
      } else {
        if Allows(s.cond, false) { AddEdge(cond, after, IfFalse); }
        IfElseIs(st, s.cond, thn, false, Now());
        open := open - {cond};
        IfDoneIs(st, s, thn, thn, Now(), trusted);
      }
      current := Some(after);
    }

    // st: before the statement, thn: after its then branch.
    method ElseBranch(s: Stmt, cond: BlockId, after: BlockId, ghost st: State, ghost thn: State)
      requires Valid() && s.If? && s.els.Some? && Inv(st) && Inv(thn) && cond == Head(st) && after == Settled(st) + 1
      requires Extends(IfThen(st, s.cond), thn) && Now() == JumpTo(thn, after, Normal).(current := thn.current)
        && thn == CompileList(IfThen(st, s.cond), s.thn, trusted)
      modifies this
      ensures Valid() && Now().(current := Some(after)) == CompileIf(st, s, trusted)
      decreases s, 0, 0
    {
      hide BlocksOk, Compile, CompileList, CompileIf, IfThen, IfElse, IfDone, JumpTo, Ensure, WithEdge, Inv;
      HeadOk(st);
      var elseBlk := NewBlock();
      if Allows(s.cond, false) { AddEdge(cond, elseBlk, IfFalse); }
      IfElseIs(st, s.cond, thn, true, Now());
      current, open := Some(elseBlk), open - {cond};
      Statement(s.els.value, NO_LABEL);
      ghost var els := Now();
      Leave(after, Normal);
      IfDoneIs(st, s, thn, els, Now(), trusted);
    }

    method ForStmt(s: Stmt, l: Label)
      requires Valid() && s.For?
      modifies this
      ensures Valid() && Now() == CompileLoop(old(Now()), s.test, s.post, s.loop, l, trusted)
      decreases s, 0
    {
      hide BlocksOk, Compile, CompileList, CompileLoop, SimpleStep, LoopBody, LoopPost, LoopDone, JumpTo, Ensure, Inv;
      ghost var st := Now();
      HeadOk(st);
      var header, after, post := ForHead(s.test, s.post.Some?, l);
      StmtList(s.loop);
      ghost var e := Now();
      Leave(post, if s.post.Some? then Normal else LoopBack);
      if s.post.Some? { PostStmt(post, s.post.value, header); }
      LoopPostIs(st, s.post, e, Now(), trusted);
      LoopDoneIs(st, s.test, s.post, s.loop, l, e, Now(), trusted);
      frames := frames[..|frames| - 1];
      current := Some(after);
    }

    // The blocks, the header's edges and the frame of a loop; the body comes next.
    method ForHead(test: Option<Cond>, hasPost: bool, l: Label) returns (header: BlockId, after: BlockId, post: BlockId)
      requires Valid()
      modifies this
      ensures Valid() && Now() == LoopBody(old(Now()), test, hasPost, l)
      ensures header == LoopHeader(old(Now())) && after == LoopFirst(old(Now())) + 1
        && post == LoopNext(old(Now()), hasPost)
    {
      hide BlocksOk, WithEdge, LoopBlocks, LoopEdges, LoopBody, Inv;
      ghost var st := Now();
      HeadOk(st);
      var body: BlockId;
      header, body, after := LoopStart();
      post := header;
      if hasPost { post := NewBlock(); }
      LoopBlocksIs(st, hasPost, Now());
      if test.Some? {
        if Allows(test.value, true) { AddEdge(header, body, IfTrue); }
        if Allows(test.value, false) { AddEdge(header, after, IfFalse); }
      } else {
        AddEdge(header, body, Normal);
      }
      LoopEdgesIs(st, test, hasPost, Now());
      frames := frames + [Frame(l, true, after, post)];
      current, open := Some(body), open - {header};
      LoopBodyIs(st, test, hasPost, l, Now());
    }

    method PostStmt(post: BlockId, x: Simple, header: BlockId)
      requires Valid() && EXIT < post < |blocks| && Target(|blocks|, header)
      modifies this
      ensures Valid()
        && Now().(current := None) ==
          JumpTo(Ensure(SimpleStep(old(Now()).(current := Some(post)), x, trusted)), header, LoopBack)
    {
      hide BlocksOk, SimpleStep;
      current := Some(post);
      SimpleStmt(x);
      var b := EnsureCurrent();
      AddEdge(b, header, LoopBack);
      open := open - {b};
    }

    // The blocks every loop has, entered from the current block.
    method LoopStart() returns (header: BlockId, body: BlockId, after: BlockId)
      requires Valid()
      modifies this
      ensures Valid() && Now().(current := None) == LoopBlocks(old(Now()), false)
      ensures header == LoopHeader(old(Now())) && body == LoopFirst(old(Now())) && after == body + 1
    {
      hide BlocksOk, WithEdge;
      header := NewBlock();
      var b := EnsureCurrent();
      Leave(header, Normal);
      ghost var entered := JumpTo(Ensure(B.NewBlock(old(Now()))), header, Normal);
      body := NewBlock();
      after := NewBlock();
      assert NewBlocks(entered, 2) == B.NewBlock(NewBlocks(entered, 1));
    }

    method RangeStmt(s: Stmt, l: Label)
      requires Valid() && s.Range?
      modifies this
      ensures Valid() && Now() == CompileLoop(old(Now()), Some(Unknown), None, s.loop, l, trusted)
      decreases s, 0
    {
      hide BlocksOk, Compile, CompileList, CompileLoop, LoopBody, LoopPost, LoopDone, JumpTo, Ensure, Inv;
      ghost var st := Now();
      HeadOk(st);
      var header, after, next := ForHead(Some(Unknown), false, l);
      StmtList(s.loop);
      ghost var e := Now();
      Leave(header, LoopBack);
      LoopPostIs(st, None, e, Now(), trusted);
      LoopDoneIs(st, Some(Unknown), None, s.loop, l, e, Now(), trusted);
      frames := frames[..|frames| - 1];
      current := Some(after);
    }

    method SwitchStmt(clauses: seq<Clause>, l: Label)
      requires Valid()
      modifies this
      ensures Valid() && Now() == CompileSwitch(old(Now()), clauses, l, trusted)
      decreases clauses, 1
    {
      hide BlocksOk, CompileSwitch, SwitchAt, SwitchStart, Ensure, WithEdge, Inv;
      ghost var st := Now();
      HeadOk(st);
      var head := EnsureCurrent();
      ghost var s := B.NewBlock(Now());
      var after := NewBlock();
      frames := frames + [Frame(l, false, after, 0)];
      PushKeeps(s, Frame(l, false, after, 0));
      var hasDefault, caseBlocks := CaseBlocks(clauses, s, st.frames + [Frame(l, false, after, 0)]);
      if !hasDefault { AddEdge(head, after, Normal); }
      SwitchStartIs(st, clauses, l, Now());
      SwitchCaseBodies(st, head, clauses, caseBlocks, after, l);
      MultiDoneIs(st, SwitchAt(st, clauses, |clauses|, l, trusted), Now());
      SwitchIs(st, clauses, l, trusted);
      frames := frames[..|frames| - 1];
      current, open := Some(after), open - {head};
    }

    // One block per clause, s being the state before but for the frames.
    method CaseBlocks(clauses: seq<Clause>, ghost s: State, ghost pushed: seq<Frame>)
      returns (hasDefault: bool, caseBlocks: seq<BlockId>)
      requires Valid() && Inv(s) && Now() == s.(frames := pushed)
      modifies this
      ensures Valid() && Now() == NewBlocks(s, |clauses|).(frames := pushed)
      ensures hasDefault <==> HasDefault(clauses)
      ensures |caseBlocks| == |clauses| && forall j :: 0 <= j < |clauses| ==> caseBlocks[j] == |s.blocks| + j
    {
      hide BlocksOk;
      hasDefault, caseBlocks := false, [];
      for i := 0 to |clauses|
        invariant Valid() && Now() == NewBlocks(s, i).(frames := pushed)
        invariant hasDefault <==> exists j :: 0 <= j < i && clauses[j].isDefault
        invariant |caseBlocks| == i && forall j :: 0 <= j < i ==> caseBlocks[j] == |s.blocks| + j
      {
        if clauses[i].isDefault { hasDefault := true; }
        var b := NewBlock();
        caseBlocks := caseBlocks + [b];
      }
    }

    method SwitchCaseBodies(ghost st: State, head: BlockId, clauses: seq<Clause>, caseBlocks: seq<BlockId>,
        after: BlockId, l: Label)
      requires Valid() && Inv(st) && head == Head(st) && after == Settled(st) && |caseBlocks| == |clauses|
      requires forall j :: 0 <= j < |clauses| ==> caseBlocks[j] == SwitchBlock(st, j)
      requires Now().(current := None) == SwitchStart(st, clauses, l)
      modifies this
      ensures Valid() && Now().(current := None) == SwitchAt(st, clauses, |clauses|, l, trusted)
      decreases clauses, 0
    {
      hide BlocksOk, CompileCase, SwitchStart, SwitchAt, SwitchEnter, SwitchLeave, WithEdge, Inv, JumpTo;
      HeadOk(st);
      SwitchAtStart(st, clauses, l, trusted);
      for i := 0 to |clauses|
        invariant Valid() && Now().(current := None) == SwitchAt(st, clauses, i, l, trusted)
      {
        ghost var before := SwitchAt(st, clauses, i, l, trusted);
        AddEdge(head, caseBlocks[i], EdgeKind.Case);
        current := Some(caseBlocks[i]);
        SwitchEnterIs(st, i, before, Now());
        var fallsThrough := CaseBody(clauses[i].body);
        ghost var e := Now();
        if current.Some? {
          if fallsThrough && i + 1 < |caseBlocks| { Leave(caseBlocks[i + 1], EdgeKind.Fallthrough); }
          else { Leave(after, Normal); }
        }
        SwitchLeaveIs(st, clauses, i, l, e, Now(), fallsThrough, trusted);
      }
    }

    // The statements of a clause up to a fallthrough; does the clause end with it?
    method CaseBody(body: seq<Stmt>) returns (fallsThrough: bool)
      requires Valid()
      modifies this
      ensures Valid() && (Now(), fallsThrough) == CompileCase(old(Now()), body, trusted)
      decreases body, 0
    {
      hide BlocksOk, Compile;
      for j := 0 to |body|
        invariant Valid() && CompileCase(Now(), body[j..], trusted) == CompileCase(old(Now()), body, trusted)
      {
        assert body[j..][1..] == body[j + 1..];
        if body[j].FallthroughStmt? { return j == |body| - 1; }
        Statement(body[j], NO_LABEL);
      }
      return false;
    }

    method SelectStmt(clauses: seq<Clause>, l: Label)
      requires Valid()
      modifies this
      ensures Valid() && Now() == CompileSelect(old(Now()), clauses, l, trusted)
      decreases clauses, 1
    {
      hide BlocksOk, CompileSelect, SelectAt, SelectStart, SelectEnter, CompileList, Ensure, WithEdge, Inv, JumpTo;
      ghost var st := Now();
      HeadOk(st);
      var head := EnsureCurrent();
      ghost var s := B.NewBlock(Now());
      var after := NewBlock();
      frames := frames + [Frame(l, false, after, 0)];
      PushKeeps(s, Frame(l, false, after, 0));
      SelectStartIs(st, clauses, l, Now(), trusted);
      for i := 0 to |clauses|
        invariant Valid() && Now().(current := None) == SelectAt(st, clauses, i, l, trusted)
      {
        ghost var before := SelectAt(st, clauses, i, l, trusted);
        var b := NewBlock();
        AddEdge(head, b, EdgeKind.Case);
        current := Some(b);
        SelectEnterIs(st, before, Now());
        StmtList(clauses[i].body);
        ghost var e := Now();
        Leave(after, Normal);
        SelectLeaveIs(st, clauses, i, l, e, Now(), trusted);
      }
      MultiDoneIs(st, SelectAt(st, clauses, |clauses|, l, trusted), Now());
      SelectIs(st, clauses, l, trusted);
      frames := frames[..|frames| - 1];
      current, open := Some(after), open - {head};
    }

    /****** Whole bodies ******/

    // Visits every labelled statement, outermost and leftmost first.
    method PreAllocateLabels(s: Stmt)
      requires Valid()
      modifies this
      ensures Valid() && Now() == AllocateLabels(old(Now()), Labels(s))
      decreases s, 1
    {
      hide BlocksOk, AllocateLabels, Inv;
      match s
      case Block(list) => PreAllocateIn(list);
      case Labeled(m, body) =>
        AllocateStep(Now(), Labels(s));
        var b := NewBlock();
        labels := labels[m := b];
        PreAllocateLabels(body);
        assert Labels(s)[1..] == Labels(body);
      case If(_, _, thn, els) =>
        PreAllocateIn(thn);
        if els.Some? {
          PreAllocateLabels(els.value);
          AllocateAppend(old(Now()), LabelsOfList(thn), Labels(els.value));
        } else {
          assert Labels(s) == LabelsOfList(thn);
        }
      case For(_, _, _, loop) => PreAllocateIn(loop);
      case Range(loop) => PreAllocateIn(loop);
      case Switch(_, clauses) => PreAllocateInClauses(clauses);
      case Select(clauses) => PreAllocateInClauses(clauses);
      case _ => AllocateNone(Now());
    }

    method PreAllocateIn(list: seq<Stmt>)
      requires Valid()
      modifies this
      ensures Valid() && Now() == AllocateLabels(old(Now()), LabelsOfList(list))
      decreases list, 0
    {
      hide BlocksOk;
      for i := 0 to |list|
        invariant Valid()
          && AllocateLabels(Now(), LabelsOfList(list[i..])) == AllocateLabels(old(Now()), LabelsOfList(list))
      {
        assert list[i..][1..] == list[i + 1..];
        AllocateAppend(Now(), Labels(list[i]), LabelsOfList(list[i + 1..]));
        PreAllocateLabels(list[i]);
      }
    }

    method PreAllocateInClauses(clauses: seq<Clause>)
      requires Valid()
      modifies this
      ensures Valid() && Now() == AllocateLabels(old(Now()), LabelsOfClauses(clauses, |clauses|))
      decreases clauses, 0
    {
      hide BlocksOk;
      for i := 0 to |clauses|
        invariant Valid() && Now() == AllocateLabels(old(Now()), LabelsOfClauses(clauses, i))
      {
        AllocateAppend(old(Now()), LabelsOfClauses(clauses, i), LabelsOfList(clauses[i].body));
        PreAllocateIn(clauses[i].body);
      }
    }
  }

  lemma {:induction false} AllocateAppend(st: State, a: seq<Label>, b: seq<Label>)
    requires Inv(st)
    ensures AllocateLabels(AllocateLabels(st, a), b) == AllocateLabels(st, a + b)
    decreases a
  {
    hide BlocksOk;
    if a == [] {
      assert a + b == b;
    } else {
      var s := B.NewBlock(st);
      AllocateAppend(s.(labels := s.labels[a[0] := |st.blocks|]), a[1..], b);
      assert (a + b)[1..] == a[1..] + b;
    }
  }

  /****** The stages of a branch or loop, as the builder reaches them ******/

  // Where branches may lead.
  lemma TargetsOk(st: State)
    requires Inv(st)
    ensures forall l :: B.ResolveBreak(st.frames, l).Some? ==>
      Target(|st.blocks|, B.ResolveBreak(st.frames, l).value)
    ensures forall l :: B.ResolveContinue(st.frames, l).Some? ==>
      Target(|st.blocks|, B.ResolveContinue(st.frames, l).value)
    ensures forall l :: l in st.labels ==> Target(|st.blocks|, st.labels[l])
  {
    hide BlocksOk;
  }

  lemma HeadOk(st: State)
    requires Inv(st)
    ensures 2 <= |st.blocks| && Head(st) < Settled(st) && Head(st) != EXIT
  {}

  lemma IfThenIs(st: State, cond: Cond, x: State)
    requires Inv(st)
    requires var s := B.NewBlock(B.NewBlock(Ensure(st)));
      x == if Allows(cond, true) then B.AddEdge(s, Head(st), Settled(st), IfTrue) else s
    ensures x.(current := Some(Settled(st))) == IfThen(st, cond)
  {
    hide BlocksOk, WithEdge;
  }

  lemma IfElseIs(st: State, cond: Cond, thn: State, hasElse: bool, x: State)
    requires Inv(st) && Inv(thn) && Extends(IfThen(st, cond), thn)
    requires
      var after := Settled(st) + 1;
      var j := JumpTo(thn, after, Normal).(current := thn.current);
      var s, e := if hasElse then B.NewBlock(j) else j, if hasElse then |j.blocks| else after;
      x == if Allows(cond, false) then B.AddEdge(s, Head(st), e, IfFalse) else s
    ensures x.(current := Some(if hasElse then |thn.blocks| else Settled(st) + 1), open := x.open - {Head(st)}) ==
      IfElse(st, cond, thn, hasElse)
  {
    hide BlocksOk, WithEdge, JumpTo, IfThen;
  }

  // els: the state after the else branch, if there is one.
  lemma IfDoneIs(st: State, s: Stmt, thn: State, els: State, x: State, trusted: Instr -> bool)
    requires Inv(st) && Inv(thn) && Inv(els) && s.If? && Extends(IfThen(st, s.cond), thn)
    requires thn == CompileList(IfThen(st, s.cond), s.thn, trusted)
    requires var t, after := IfElse(st, s.cond, thn, s.els.Some?), Settled(st) + 1;
      if s.els.Some? then
        els == Compile(t, s.els.value, NO_LABEL, trusted) && after < |els.blocks|
          && x == JumpTo(els, after, Normal).(current := els.current)
      else x.(current := Some(after)) == t
    ensures x.(current := Some(Settled(st) + 1)) == CompileIf(st, s, trusted)
  {
    hide BlocksOk, IfThen, IfElse, JumpTo, Compile, CompileList;
  }

  lemma LoopBlocksIs(st: State, hasPost: bool, x: State)
    requires Inv(st) && Inv(x)
    requires x.(current := None) == if hasPost then B.NewBlock(LoopBlocks(st, false)) else LoopBlocks(st, false)
    ensures x.(current := None) == LoopBlocks(st, hasPost)
  {
    hide BlocksOk, JumpTo, Ensure;
    ghost var entered := JumpTo(Ensure(B.NewBlock(st)), LoopHeader(st), Normal);
    assert NewBlocks(entered, 3) == B.NewBlock(NewBlocks(entered, 2));
  }

  lemma LoopEdgesIs(st: State, test: Option<Cond>, hasPost: bool, x: State)
    requires Inv(st) && Inv(x)
    requires var s, h, b := LoopBlocks(st, hasPost), LoopHeader(st), LoopFirst(st);
      x.(current := None) ==
        if test.None? then B.AddEdge(s, h, b, Normal)
        else
          var s0 := if Allows(test.value, true) then B.AddEdge(s, h, b, IfTrue) else s;
          if Allows(test.value, false) then B.AddEdge(s0, h, b + 1, IfFalse) else s0
    ensures x.(current := None) == LoopEdges(st, test, hasPost)
  {
    hide BlocksOk, LoopBlocks, WithEdge;
  }

  lemma LoopBodyIs(st: State, test: Option<Cond>, hasPost: bool, l: Label, x: State)
    requires Inv(st)
    requires var s := LoopEdges(st, test, hasPost);
      x == s.(frames := st.frames + [Frame(l, true, LoopFirst(st) + 1, LoopNext(st, hasPost))],
        current := Some(LoopFirst(st)), open := s.open - {LoopHeader(st)})
    ensures x == LoopBody(st, test, hasPost, l)
  {
    hide BlocksOk, LoopEdges;
  }

  lemma LoopPostIs(st: State, post: Option<Simple>, e: State, x: State, trusted: Instr -> bool)
    requires Inv(st) && Inv(e) && Inv(x) && LoopSize(st, post.Some?) <= |e.blocks|
    requires var s := JumpTo(e, LoopNext(st, post.Some?), if post.Some? then Normal else LoopBack);
      if post.None? then x == s.(current := e.current)
      else
        var p := SimpleStep(s.(current := Some(LoopNext(st, true))), post.value, trusted);
        x.(current := None) == JumpTo(Ensure(p), LoopHeader(st), LoopBack)
    ensures x.(current := None) == LoopPost(st, post, e, trusted)
  {
    hide BlocksOk, SimpleStep, WithEdge;
  }

  lemma LoopDoneIs(st: State, test: Option<Cond>, post: Option<Simple>, loop: seq<Stmt>, l: Label, e: State, x: State,
      trusted: Instr -> bool)
    requires Inv(st) && Inv(e) && e == CompileList(LoopBody(st, test, post.Some?, l), loop, trusted)
    requires LoopSize(st, post.Some?) <= |e.blocks| && x.(current := None) == LoopPost(st, post, e, trusted)
    ensures x.frames == st.frames + [Frame(l, true, LoopFirst(st) + 1, LoopNext(st, post.Some?))]
    ensures x.(frames := st.frames, current := Some(LoopFirst(st) + 1)) == CompileLoop(st, test, post, loop, l, trusted)
  {
    hide BlocksOk, CompileList, LoopBody, LoopPost;
  }

  lemma SwitchStartIs(st: State, clauses: seq<Clause>, l: Label, x: State)
    requires Inv(st) && Inv(x)
    requires var after := Settled(st);
      var s := NewBlocks(B.NewBlock(Ensure(st)), |clauses|).(frames := st.frames + [Frame(l, false, after, 0)]);
      Inv(s) && x == if HasDefault(clauses) then s else B.AddEdge(s, Head(st), after, Normal)
    ensures x.(current := None) == SwitchStart(st, clauses, l)
  {
    hide BlocksOk, WithEdge, Ensure, NewBlocks, Inv, HasDefault, B.AddEdge;
    HeadOk(st);
    var s := NewBlocks(B.NewBlock(Ensure(st)), |clauses|);
    if !HasDefault(clauses) { FramesCommute(s, st.frames + [Frame(l, false, Settled(st), 0)], Head(st), Settled(st)); }
  }

  lemma FramesCommute(s: State, fs: seq<Frame>, from: BlockId, to: BlockId)
    requires Inv(s) && Inv(s.(frames := fs)) && from < |s.blocks| && from != EXIT && Target(|s.blocks|, to)
    ensures B.AddEdge(s.(frames := fs), from, to, Normal) == B.AddEdge(s, from, to, Normal).(frames := fs)
  {
    hide BlocksOk, WithEdge;
  }

  lemma SwitchAtStart(st: State, clauses: seq<Clause>, l: Label, trusted: Instr -> bool)
    requires Inv(st)
    ensures SwitchAt(st, clauses, 0, l, trusted) == SwitchStart(st, clauses, l)
  {
    hide BlocksOk, SwitchStart;
  }

  lemma SwitchEnterIs(st: State, i: nat, before: State, x: State)
    requires Inv(st) && Inv(before) && SwitchBlock(st, i) < |before.blocks|
    requires x.(current := None) == B.AddEdge(before, Head(st), SwitchBlock(st, i), EdgeKind.Case).(current := None)
    requires x.current == Some(SwitchBlock(st, i))
    ensures x == SwitchEnter(st, i, before)
  {
    hide BlocksOk, WithEdge;
  }

  lemma SwitchLeaveIs(st: State, clauses: seq<Clause>, i: nat, l: Label, e: State, x: State, falls: bool,
      trusted: Instr -> bool)
    requires Inv(st) && Inv(e) && i < |clauses|
    requires (e, falls) ==
      CompileCase(SwitchEnter(st, i, SwitchAt(st, clauses, i, l, trusted)), clauses[i].body, trusted)
    requires SwitchBlock(st, |clauses|) <= |e.blocks|
    requires x.(current := None) ==
      if e.current.None? then e
      else if falls && i + 1 < |clauses| then JumpTo(e, SwitchBlock(st, i + 1), EdgeKind.Fallthrough)
        else JumpTo(e, Settled(st), Normal)
    ensures x.(current := None) == SwitchAt(st, clauses, i + 1, l, trusted)
  {
    hide BlocksOk, SwitchEnter, CompileCase, WithEdge;
  }

  lemma SelectStartIs(st: State, clauses: seq<Clause>, l: Label, x: State, trusted: Instr -> bool)
    requires Inv(st) && x == B.NewBlock(Ensure(st)).(frames := st.frames + [Frame(l, false, Settled(st), 0)])
    ensures x.(current := None) == SelectAt(st, clauses, 0, l, trusted)
  {
    hide BlocksOk, Ensure;
  }

  lemma SelectEnterIs(st: State, before: State, x: State)
    requires Inv(st) && Inv(before) && Settled(st) < |before.blocks|
    requires x.(current := None) ==
      B.AddEdge(B.NewBlock(before), Head(st), |before.blocks|, EdgeKind.Case).(current := None)
    requires x.current == Some(|before.blocks|)
    ensures x == SelectEnter(st, before)
  {
    hide BlocksOk, WithEdge;
  }

  lemma SelectLeaveIs(st: State, clauses: seq<Clause>, i: nat, l: Label, e: State, x: State, trusted: Instr -> bool)
    requires Inv(st) && i < |clauses| && Inv(e)
    requires e == CompileList(SelectEnter(st, SelectAt(st, clauses, i, l, trusted)), clauses[i].body, trusted)
    requires Settled(st) < |e.blocks| && x.(current := None) == JumpTo(e, Settled(st), Normal).(current := None)
    ensures x.(current := None) == SelectAt(st, clauses, i + 1, l, trusted)
  {
    hide BlocksOk, JumpTo, SelectEnter, CompileList;
  }

  // e: the state once every clause of a switch or select is compiled.
  lemma MultiDoneIs(st: State, e: State, x: State)
    requires Inv(st) && Inv(e) && Settled(st) < |e.blocks| && |e.frames| == |st.frames| + 1 && st.frames <= e.frames
    requires x.(current := None) == e.(current := None)
    ensures x.frames[..|x.frames| - 1] == st.frames
    ensures x.(frames := st.frames, current := Some(Settled(st)), open := x.open - {Head(st)}) == MultiDone(st, e)
  {
    hide BlocksOk;
  }

  lemma SwitchIs(st: State, clauses: seq<Clause>, l: Label, trusted: Instr -> bool)
    requires Inv(st)
    ensures CompileSwitch(st, clauses, l, trusted) == MultiDone(st, SwitchAt(st, clauses, |clauses|, l, trusted))
  {
    hide BlocksOk, MultiDone, SwitchAt;
  }

  lemma SelectIs(st: State, clauses: seq<Clause>, l: Label, trusted: Instr -> bool)
    requires Inv(st)
    ensures CompileSelect(st, clauses, l, trusted) == MultiDone(st, SelectAt(st, clauses, |clauses|, l, trusted))
  {
    hide BlocksOk, MultiDone, SelectAt;
  }

  // The graph of a body, and where each recorded call landed.
  method BuildGraph(body: seq<Stmt>, trusted: Instr -> bool) returns (g: CFG, calls: map<CallId, CallSite>)
    ensures g == GraphOf(Build(body, trusted)) && calls == Build(body, trusted).sites
  {
    hide BlocksOk, CompileList;
    var b := new Builder(trusted);
    b.PreAllocateIn(body);
    b.StmtList(body);
    b.Leave(b.exit, Normal);
    return CFG(ENTRY, EXIT, b.blocks), b.callSites;
  }
}
