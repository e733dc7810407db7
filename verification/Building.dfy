/**
 What each step of the graph builder does to its state.

 These functions specify the imperative builder (module Compiler): one per statement form,
 cut into the stages between which a nested body is compiled.  A block is open while the
 builder may still append to it or add edges out of it; control never returns to a block
 that has been closed.
 */
module Building {
  import opened Wrappers
  import opened Graph
  import opened Syntax

  datatype Frame = Frame(name: Label, isLoop: bool, breakTo: BlockId, continueTo: BlockId)

  datatype CallSite = CallSite(block: BlockId, index: nat, async: bool)

  datatype State = State(
    blocks: seq<BasicBlock>, current: Option<BlockId>, frames: seq<Frame>,
    labels: map<Label, BlockId>, sites: map<CallId, CallSite>, open: set<BlockId>)

  const ENTRY: BlockId := 0
  const EXIT: BlockId := 1

  // No call is trusted: the purely structural graph.
  const STRUCTURAL: Instr -> bool := _ => false

  /****** The structural invariant ******/

  function EdgesTo(succs: seq<Edge>, b: BlockId): nat {
    if succs == [] then 0 else EdgesTo(succs[..|succs| - 1], b) + if succs[|succs| - 1].to == b then 1 else 0
  }

  // Predecessor lists hold the sources of the incoming edges, with multiplicity.
  ghost predicate PredsExact(blocks: seq<BasicBlock>) {
    forall b: nat, p: nat :: b < |blocks| ==> Listed(blocks, b, p) == Edges(blocks, p, b)
  }

  // How often b lists p as a predecessor; how many edges lead from p to b.
  ghost function Listed(blocks: seq<BasicBlock>, b: BlockId, p: BlockId): nat
    requires b < |blocks|
  {
    multiset(blocks[b].preds)[p]
  }

  ghost function Edges(blocks: seq<BasicBlock>, p: BlockId, b: BlockId): nat {
    if p < |blocks| then EdgesTo(blocks[p].succs, b) else 0
  }

  // A block that may be entered: neither the entry nor out of range.
  predicate Target(n: nat, b: BlockId) {
    EXIT <= b < n
  }

  // Block IDs are indices, edges stay in range, predecessor lists are exact, nothing enters
  // the entry and nothing leaves the exit.
  ghost predicate BlocksOk(blocks: seq<BasicBlock>) {
    && 2 <= |blocks|
    && (forall b :: 0 <= b < |blocks| ==> blocks[b].id == b)
    && EdgesInRange(blocks)
    && PredsExact(blocks)
    && blocks[ENTRY].preds == [] && blocks[EXIT].succs == []
  }

  ghost predicate Inv(st: State) {
    && 2 <= |st.blocks|
    && BlocksOk(st.blocks)
    && (st.current.Some? ==> st.current.value != EXIT && st.current.value < |st.blocks|)
    && (forall f :: f in st.frames ==>
      Target(|st.blocks|, f.breakTo) && (f.isLoop ==> Target(|st.blocks|, f.continueTo)))
    && (forall l :: l in st.labels ==> EXIT < st.labels[l] < |st.blocks|)
  }

  // What any piece of compilation leaves in place.
  ghost predicate Extends(st: State, r: State) {
    r.frames == st.frames && Grows(st, r)
  }

  ghost predicate Grows(st: State, r: State) {
    && |st.blocks| <= |r.blocks|
    && (forall l :: l in st.labels ==> l in r.labels && r.labels[l] == st.labels[l])
  }

  /****** Elementary steps ******/

  ghost function NewBlock(st: State): (r: State)
    requires Inv(st)
    ensures Inv(r) && Extends(st, r)
    ensures r == st.(blocks := st.blocks + [BasicBlock(|st.blocks|, [], [], [])], open := st.open + {|st.blocks|})
  {
    var n := |st.blocks|;
    NewBlockKeeps(st.blocks);
    st.(blocks := st.blocks + [BasicBlock(n, [], [], [])], open := st.open + {n})
  }

  lemma NewBlockKeeps(blocks: seq<BasicBlock>)
    requires BlocksOk(blocks)
    ensures BlocksOk(blocks + [BasicBlock(|blocks|, [], [], [])])
  {
    var r := blocks + [BasicBlock(|blocks|, [], [], [])];
    forall b: nat, p: nat | b < |r| ensures Listed(r, b, p) == Edges(r, p, b) {
      if b < |blocks| { assert Listed(blocks, b, p) == Edges(blocks, p, b); }
      else if p < |blocks| { NoEdgesTo(blocks[p].succs, b); }
    }
  }

  lemma {:induction false} NoEdgesTo(succs: seq<Edge>, b: BlockId)
    requires forall j :: 0 <= j < |succs| ==> succs[j].to != b
    ensures EdgesTo(succs, b) == 0
  {
    if succs != [] { NoEdgesTo(succs[..|succs| - 1], b); }
  }

  ghost function WithEdge(blocks: seq<BasicBlock>, from: BlockId, to: BlockId, kind: EdgeKind): (r: seq<BasicBlock>)
    requires from < |blocks| && to < |blocks|
    ensures |r| == |blocks|
    ensures forall b :: 0 <= b < |blocks| ==>
      && r[b].id == blocks[b].id && r[b].instrs == blocks[b].instrs
      && r[b].succs == (if b == from then blocks[b].succs + [Edge(from, to, kind)] else blocks[b].succs)
      && r[b].preds == (if b == to then blocks[b].preds + [from] else blocks[b].preds)
  {
    var out := blocks[from := blocks[from].(succs := blocks[from].succs + [Edge(from, to, kind)])];
    out[to := out[to].(preds := out[to].preds + [from])]
  }

  ghost function AddEdge(st: State, from: BlockId, to: BlockId, kind: EdgeKind): (r: State)
    requires Inv(st) && from < |st.blocks| && from != EXIT && Target(|st.blocks|, to)
    ensures Inv(r) && Extends(st, r) && |r.blocks| == |st.blocks|
    ensures r == st.(blocks := WithEdge(st.blocks, from, to, kind))
  {
    AddEdgeKeeps(st.blocks, from, to, kind);
    st.(blocks := WithEdge(st.blocks, from, to, kind))
  }

  lemma AddEdgeKeeps(blocks: seq<BasicBlock>, from: BlockId, to: BlockId, kind: EdgeKind)
    requires from < |blocks| && from != EXIT && Target(|blocks|, to) && BlocksOk(blocks)
    ensures BlocksOk(WithEdge(blocks, from, to, kind))
  {
    var r := WithEdge(blocks, from, to, kind);
    forall b: nat, p: nat | b < |r| ensures Listed(r, b, p) == Edges(r, p, b) {
      assert Listed(blocks, b, p) == Edges(blocks, p, b);
      assert r[b].preds == if b == to then blocks[b].preds + [from] else blocks[b].preds;
      if p == from {
        assert r[p].succs[..|r[p].succs| - 1] == blocks[p].succs;
      }
    }
  }

  ghost function Close(st: State, b: BlockId): State {
    st.(open := st.open - {b})
  }

  // Leaves the current block, if there is one, by a single edge.
  ghost function JumpTo(st: State, to: BlockId, kind: EdgeKind): (r: State)
    requires Inv(st) && Target(|st.blocks|, to)
    ensures Inv(r) && Extends(st, r) && r.current == None && |r.blocks| == |st.blocks|
  {
    if st.current.None? then st
    else Close(AddEdge(st, st.current.value, to, kind).(current := None), st.current.value)
  }

  // Leaves the current block without an edge.
  ghost function Abandon(st: State): (r: State)
    requires Inv(st)
    ensures Inv(r) && Extends(st, r)
  {
    if st.current.None? then st else Close(st.(current := None), st.current.value)
  }

  // The block the next statement goes to, and the number of blocks once it exists.
  ghost function Head(st: State): BlockId {
    if st.current.Some? then st.current.value else |st.blocks|
  }

  ghost function Settled(st: State): nat {
    if st.current.Some? then |st.blocks| else |st.blocks| + 1
  }

  ghost function Ensure(st: State): (r: State)
    requires Inv(st)
    ensures Inv(r) && Extends(st, r) && r.current == Some(Head(st)) && |r.blocks| == Settled(st)
    ensures st.current.Some? ==> r == st
  {
    if st.current.Some? then st else NewBlock(st).(current := Some(|st.blocks|))
  }

  ghost function Emit(st: State, id: Instr): (r: State)
    requires Inv(st)
    ensures Inv(r) && Extends(st, r) && r.current.Some?
  {
    var s := Ensure(st);
    var b := s.current.value;
    EmitKeeps(s.blocks, b, id);
    s.(blocks := s.blocks[b := s.blocks[b].(instrs := s.blocks[b].instrs + [id])])
  }

  lemma EmitKeeps(blocks: seq<BasicBlock>, b: BlockId, id: Instr)
    requires BlocksOk(blocks) && b < |blocks|
    ensures BlocksOk(blocks[b := blocks[b].(instrs := blocks[b].instrs + [id])])
  {
    var r := blocks[b := blocks[b].(instrs := blocks[b].instrs + [id])];
    assert forall c :: 0 <= c < |r| ==> r[c].preds == blocks[c].preds && r[c].succs == blocks[c].succs;
    forall c: nat, p: nat | c < |r| ensures Listed(r, c, p) == Edges(r, p, c) {
      assert Listed(blocks, c, p) == Edges(blocks, p, c);
    }
  }

  ghost function Record(st: State, call: CallId, async: bool): (r: State)
    requires Inv(st)
    ensures Inv(r) && Extends(st, r)
  {
    var s := Ensure(st);
    s.(sites := s.sites[call := CallSite(s.current.value, |s.blocks[s.current.value].instrs|, async)])
  }

  ghost function RecordAll(st: State, calls: seq<CallId>): (r: State)
    requires Inv(st)
    ensures Inv(r) && Extends(st, r)
    decreases calls
  {
    if calls == [] then st else RecordAll(Record(st, calls[0], false), calls[1..])
  }

  ghost function NewBlocks(st: State, n: nat): (r: State)
    requires Inv(st)
    ensures Inv(r) && Extends(st, r) && |r.blocks| == |st.blocks| + n && r.current == st.current
  {
    if n == 0 then st else NewBlock(NewBlocks(st, n - 1))
  }

  function ResolveBreak(frames: seq<Frame>, l: Label): (r: Option<BlockId>)
    ensures r.Some? ==> exists f :: f in frames && r.value == f.breakTo
  {
    if frames == [] then None
    else
      var f := frames[|frames| - 1];
      if l == NO_LABEL || f.name == l then Some(f.breakTo) else ResolveBreak(frames[..|frames| - 1], l)
  }

  function ResolveContinue(frames: seq<Frame>, l: Label): (r: Option<BlockId>)
    ensures r.Some? ==> exists f :: f in frames && f.isLoop && r.value == f.continueTo
  {
    if frames == [] then None
    else
      var f := frames[|frames| - 1];
      if f.isLoop && (l == NO_LABEL || f.name == l) then Some(f.continueTo)
      else ResolveContinue(frames[..|frames| - 1], l)
  }

  /****** Statements ******/

  ghost function SimpleStep(st: State, x: Simple, trust: Instr -> bool): (r: State)
    requires Inv(st)
    ensures Inv(r) && Extends(st, r)
  {
    var s := Emit(RecordAll(st, x.calls), x.id);
    if x.panics then JumpTo(s, EXIT, Panic)
    else if trust(x.id) then
      var b, next := s.current.value, |s.blocks|;
      Close(AddEdge(AddEdge(NewBlock(s), b, next, Normal), b, EXIT, TrustedStop).(current := Some(next)), b)
    else s
  }

  ghost function InitStep(st: State, init: Option<Simple>, trust: Instr -> bool): (r: State)
    requires Inv(st)
    ensures Inv(r) && Extends(st, r)
  {
    if init.Some? then SimpleStep(st, init.value, trust) else st
  }

  ghost function SpecsStep(st: State, specs: seq<Simple>, trust: Instr -> bool): (r: State)
    requires Inv(st)
    ensures Inv(r) && Extends(st, r)
    decreases specs
  {
    if specs == [] then st else SpecsStep(SimpleStep(st, specs[0], trust), specs[1..], trust)
  }

  // The block of a label, allocated now if the traversal that allocates them missed it.
  ghost function LabelBlock(st: State, l: Label): (r: State)
    requires Inv(st)
    ensures Inv(r) && Extends(st, r) && l in r.labels && r.current == st.current
    ensures l in st.labels ==> r == st
  {
    if l in st.labels then st else
      var s := NewBlock(st);
      s.(labels := s.labels[l := |st.blocks|])
  }

  ghost function EnterLabel(st: State, l: Label): (r: State)
    requires Inv(st)
    ensures Inv(r) && Extends(st, r) && l in r.labels && r.current == Some(r.labels[l])
  {
    var s := LabelBlock(st, l);
    var t := s.labels[l];
    (if s.current != Some(t) then JumpTo(s, t, Normal) else s).(current := Some(t))
  }

  // if: the condition's block c, then the branches' blocks.
  ghost function IfThen(st: State, cond: Cond): (r: State)
    requires Inv(st)
    ensures Inv(r) && Extends(st, r) && |r.blocks| == Settled(st) + 2
  {
    var s := Ensure(st);
    var c, t := s.current.value, |s.blocks|;
    var s1 := NewBlock(NewBlock(s));
    (if Allows(cond, true) then AddEdge(s1, c, t, IfTrue) else s1).(current := Some(t))
  }

  // s is the state after the then branch; the else branch, if any, is entered.
  ghost function IfElse(st: State, cond: Cond, s: State, hasElse: bool): (r: State)
    requires Inv(st) && Inv(s) && Extends(IfThen(st, cond), s)
    ensures Inv(r) && Extends(s, r)
  {
    var c, after := Head(st), Settled(st) + 1;
    var s1 := JumpTo(s, after, Normal);
    var s2 := if hasElse then NewBlock(s1) else s1;
    var e := if hasElse then |s1.blocks| else after;
    Close((if Allows(cond, false) then AddEdge(s2, c, e, IfFalse) else s2).(current := Some(e)), c)
  }

  ghost function IfDone(st: State, s: State): (r: State)
    requires Inv(st) && Inv(s) && Settled(st) + 1 < |s.blocks|
    ensures Inv(r) && Extends(s, r)
  {
    var after := Settled(st) + 1;
    JumpTo(s, after, Normal).(current := Some(after))
  }

  // Loops: header, body, after and, with a post statement, post.
  ghost function LoopHeader(st: State): BlockId { |st.blocks| }

  ghost function LoopFirst(st: State): BlockId { Settled(st) + 1 }

  ghost function LoopNext(st: State, hasPost: bool): BlockId {
    if hasPost then LoopFirst(st) + 2 else LoopHeader(st)
  }

  ghost function LoopSize(st: State, hasPost: bool): nat {
    LoopFirst(st) + if hasPost then 3 else 2
  }

  ghost function LoopBlocks(st: State, hasPost: bool): (r: State)
    requires Inv(st)
    ensures Inv(r) && Extends(st, r) && r.current == None && |r.blocks| == LoopSize(st, hasPost)
  {
    NewBlocks(JumpTo(Ensure(NewBlock(st)), LoopHeader(st), Normal), if hasPost then 3 else 2)
  }

  ghost function LoopEdges(st: State, test: Option<Cond>, hasPost: bool): (r: State)
    requires Inv(st)
    ensures Inv(r) && Extends(st, r) && |r.blocks| == LoopSize(st, hasPost)
  {
    var s := LoopBlocks(st, hasPost);
    var h, b := LoopHeader(st), LoopFirst(st);
    if test.None? then AddEdge(s, h, b, Normal)
    else
      var s0 := if Allows(test.value, true) then AddEdge(s, h, b, IfTrue) else s;
      if Allows(test.value, false) then AddEdge(s0, h, b + 1, IfFalse) else s0
  }

  lemma PushKeeps(s: State, f: Frame)
    requires Inv(s) && Target(|s.blocks|, f.breakTo) && (f.isLoop ==> Target(|s.blocks|, f.continueTo))
    ensures Inv(s.(frames := s.frames + [f]))
  {
    hide BlocksOk;
  }

  ghost function LoopBody(st: State, test: Option<Cond>, hasPost: bool, l: Label): (r: State)
    requires Inv(st)
    ensures Inv(r) && Grows(st, r) && |r.blocks| == LoopSize(st, hasPost)
    ensures r.frames == st.frames + [Frame(l, true, LoopFirst(st) + 1, LoopNext(st, hasPost))]
  {
    var s := LoopEdges(st, test, hasPost);
    var h, b := LoopHeader(st), LoopFirst(st);
    var f := Frame(l, true, b + 1, LoopNext(st, hasPost));
    assert Target(|s.blocks|, f.breakTo) && Target(|s.blocks|, f.continueTo);
    PushKeeps(s, f);
    Close(s.(frames := st.frames + [f], current := Some(b)), h)
  }

  // s is the state after the body.
  ghost function LoopPost(st: State, post: Option<Simple>, s: State, trust: Instr -> bool): (r: State)
    requires Inv(st) && Inv(s) && LoopSize(st, post.Some?) <= |s.blocks|
    ensures Inv(r) && Extends(s, r)
  {
    var s1 := JumpTo(s, LoopNext(st, post.Some?), if post.Some? then Normal else LoopBack);
    if post.None? then s1
    else JumpTo(Ensure(SimpleStep(s1.(current := Some(LoopNext(st, true))), post.value, trust)), LoopHeader(st),
      LoopBack)
  }

  ghost function LoopDone(st: State, s: State): (r: State)
    requires Inv(st) && Inv(s) && LoopFirst(st) + 1 < |s.blocks| && st.frames <= s.frames
    ensures Inv(r) && r.frames == st.frames && |r.blocks| == |s.blocks|
  {
    s.(frames := st.frames, current := Some(LoopFirst(st) + 1))
  }

  // Switches: the head's block, after, and one block per clause, all allocated first.
  ghost function SwitchStart(st: State, clauses: seq<Clause>, l: Label): (r: State)
    requires Inv(st)
    ensures Inv(r) && r.frames == st.frames + [Frame(l, false, Settled(st), 0)] && Grows(st, r)
    ensures |r.blocks| == Settled(st) + 1 + |clauses|
  {
    var s := Ensure(st);
    var after := |s.blocks|;
    var s1 := NewBlocks(NewBlock(s), |clauses|);
    var s2 := if HasDefault(clauses) then s1 else AddEdge(s1, s.current.value, after, Normal);
    s2.(frames := st.frames + [Frame(l, false, after, 0)], current := None)
  }

  ghost function SwitchBlock(st: State, i: nat): BlockId {
    Settled(st) + 1 + i
  }

  // s is the state before clause i.
  ghost function SwitchEnter(st: State, i: nat, s: State): (r: State)
    requires Inv(st) && Inv(s) && SwitchBlock(st, i) < |s.blocks|
    ensures Inv(r) && Extends(s, r)
  {
    AddEdge(s, Head(st), SwitchBlock(st, i), EdgeKind.Case).(current := Some(SwitchBlock(st, i)))
  }

  // s is the state after the body of clause i of n.
  ghost function SwitchLeave(st: State, n: nat, i: nat, s: State, falls: bool): (r: State)
    requires Inv(st) && Inv(s) && i < n && SwitchBlock(st, n) <= |s.blocks|
    ensures Inv(r) && Extends(s, r)
  {
    if falls && i + 1 < n then JumpTo(s, SwitchBlock(st, i + 1), EdgeKind.Fallthrough)
    else JumpTo(s, Settled(st), Normal)
  }

  // Selects: the head's block and after; clause blocks are allocated one by one.
  ghost function SelectStart(st: State, l: Label): (r: State)
    requires Inv(st)
    ensures Inv(r) && r.frames == st.frames + [Frame(l, false, Settled(st), 0)] && Grows(st, r)
    ensures |r.blocks| == Settled(st) + 1
  {
    var s := Ensure(st);
    NewBlock(s).(frames := st.frames + [Frame(l, false, |s.blocks|, 0)], current := None)
  }

  ghost function SelectEnter(st: State, s: State): (r: State)
    requires Inv(st) && Inv(s) && Settled(st) < |s.blocks|
    ensures Inv(r) && Extends(s, r) && |r.blocks| == |s.blocks| + 1
  {
    AddEdge(NewBlock(s), Head(st), |s.blocks|, EdgeKind.Case).(current := Some(|s.blocks|))
  }

  ghost function SelectLeave(st: State, s: State): (r: State)
    requires Inv(st) && Inv(s) && Settled(st) < |s.blocks|
    ensures Inv(r) && Extends(s, r)
  {
    JumpTo(s, Settled(st), Normal)
  }

  // Ends a switch or select.
  ghost function MultiDone(st: State, s: State): (r: State)
    requires Inv(st) && Inv(s) && Settled(st) < |s.blocks| && st.frames <= s.frames
    ensures Inv(r) && r.frames == st.frames && |r.blocks| == |s.blocks|
  {
    Close(s.(frames := st.frames, current := Some(Settled(st))), Head(st))
  }

  ghost function Compile(st: State, s: Stmt, l: Label, trust: Instr -> bool): (r: State)
    requires Inv(st)
    ensures Inv(r) && Extends(st, r)
    decreases s, 1
  {
    match s
    case Block(list) => CompileList(st, list, trust)
    case Labeled(m, body) => Compile(EnterLabel(st, m), body, m, trust)
    case Exec(x) => SimpleStep(st, x, trust)
    case VarDecl(specs) => SpecsStep(st, specs, trust)
    case Opaque(id) => Emit(st, id)
    case GoCall(id, call) => Emit(Record(st, call, true), id)
    case DeferCall(id, call) => Emit(Record(st, call, false), id)
    case Empty => st
    case If(init, _, _, _) => CompileIf(InitStep(st, init, trust), s, trust)
    case For(init, test, post, loop) => CompileLoop(InitStep(st, init, trust), test, post, loop, l, trust)
    case Range(loop) => CompileLoop(st, Some(Unknown), None, loop, l, trust)
    case Switch(init, clauses) => CompileSwitch(InitStep(st, init, trust), clauses, l, trust)
    case Select(clauses) => CompileSelect(st, clauses, l, trust)
    case ReturnStmt(id, calls) => JumpTo(Emit(RecordAll(st, calls), id), EXIT, Return)
    case BreakStmt(m) => Branch(st, ResolveBreak(st.frames, m), EdgeKind.Break)
    case ContinueStmt(m) => Branch(st, ResolveContinue(st.frames, m), EdgeKind.Continue)
    case GotoStmt(m) => Branch(st, if m in st.labels then Some(st.labels[m]) else None, EdgeKind.Goto)
    case FallthroughStmt(id) => Emit(st, id)
  }

  ghost function Branch(st: State, target: Option<BlockId>, kind: EdgeKind): (r: State)
    requires Inv(st) && (target.Some? ==> Target(|st.blocks|, target.value))
    ensures Inv(r) && Extends(st, r) && r.current == None
  {
    if target.Some? then JumpTo(Ensure(st), target.value, kind) else Abandon(st)
  }

  ghost function CompileList(st: State, list: seq<Stmt>, trust: Instr -> bool): (r: State)
    requires Inv(st)
    ensures Inv(r) && Extends(st, r)
    decreases list, 0
  {
    if list == [] then st else CompileList(Compile(st, list[0], NO_LABEL, trust), list[1..], trust)
  }

  ghost function CompileIf(st: State, s: Stmt, trust: Instr -> bool): (r: State)
    requires Inv(st) && s.If?
    ensures Inv(r) && Extends(st, r)
    decreases s, 0
  {
    var t := IfElse(st, s.cond, CompileList(IfThen(st, s.cond), s.thn, trust), s.els.Some?);
    if s.els.Some? then IfDone(st, Compile(t, s.els.value, NO_LABEL, trust)) else t
  }

  ghost function CompileLoop(st: State, test: Option<Cond>, post: Option<Simple>, loop: seq<Stmt>, l: Label,
      trust: Instr -> bool): (r: State)
    requires Inv(st)
    ensures Inv(r) && Extends(st, r)
    decreases loop, 1
  {
    LoopDone(st, LoopPost(st, post, CompileList(LoopBody(st, test, post.Some?, l), loop, trust), trust))
  }

  // The statements of a clause, and whether it ends by falling through.
  ghost function CompileCase(st: State, body: seq<Stmt>, trust: Instr -> bool): (r: (State, bool))
    requires Inv(st)
    ensures Inv(r.0) && Extends(st, r.0)
    decreases body, 0
  {
    if body == [] then (st, false)
    else if body[0].FallthroughStmt? then (st, |body| == 1)
    else CompileCase(Compile(st, body[0], NO_LABEL, trust), body[1..], trust)
  }

  // The state once the first n clauses are compiled.
  ghost function SwitchAt(st: State, clauses: seq<Clause>, n: nat, l: Label, trust: Instr -> bool): (r: State)
    requires Inv(st) && n <= |clauses|
    ensures Inv(r) && Extends(SwitchStart(st, clauses, l), r)
    decreases clauses, n, 0
  {
    if n == 0 then SwitchStart(st, clauses, l)
    else
      var r := CompileCase(SwitchEnter(st, n - 1, SwitchAt(st, clauses, n - 1, l, trust)), clauses[n - 1].body, trust);
      SwitchLeave(st, |clauses|, n - 1, r.0, r.1)
  }

  ghost function CompileSwitch(st: State, clauses: seq<Clause>, l: Label, trust: Instr -> bool): (r: State)
    requires Inv(st)
    ensures Inv(r) && Extends(st, r)
    decreases clauses, |clauses|, 1
  {
    MultiDone(st, SwitchAt(st, clauses, |clauses|, l, trust))
  }

  ghost function SelectAt(st: State, clauses: seq<Clause>, n: nat, l: Label, trust: Instr -> bool): (r: State)
    requires Inv(st) && n <= |clauses|
    ensures Inv(r) && Extends(SelectStart(st, l), r)
    decreases clauses, n, 0
  {
    if n == 0 then SelectStart(st, l)
    else SelectLeave(st,
      CompileList(SelectEnter(st, SelectAt(st, clauses, n - 1, l, trust)), clauses[n - 1].body, trust))
  }

  ghost function CompileSelect(st: State, clauses: seq<Clause>, l: Label, trust: Instr -> bool): (r: State)
    requires Inv(st)
    ensures Inv(r) && Extends(st, r)
    decreases clauses, |clauses|, 1
  {
    MultiDone(st, SelectAt(st, clauses, |clauses|, l, trust))
  }

  /****** Whole bodies ******/

  ghost function Fresh(): (r: State)
    ensures Inv(r)
  {
    State([BasicBlock(ENTRY, [], [], []), BasicBlock(EXIT, [], [], [])], Some(ENTRY), [], map[], map[], {ENTRY})
  }

  // Every label of the body gets its block before anything is compiled.
  ghost function AllocateLabels(st: State, ls: seq<Label>): (r: State)
    requires Inv(st)
    ensures Inv(r) && r.frames == st.frames && r.current == st.current && |st.blocks| <= |r.blocks|
    decreases ls
  {
    if ls == [] then st else
      var s := NewBlock(st);
      AllocateLabels(s.(labels := s.labels[ls[0] := |st.blocks|]), ls[1..])
  }

  lemma AllocateStep(st: State, ls: seq<Label>)
    requires Inv(st) && ls != []
    ensures var s := NewBlock(st).(labels := st.labels[ls[0] := |st.blocks|]);
      Inv(s) && AllocateLabels(st, ls) == AllocateLabels(s, ls[1..])
  {
    hide BlocksOk;
  }

  lemma AllocateNone(st: State)
    requires Inv(st)
    ensures AllocateLabels(st, []) == st
  {
    hide BlocksOk;
  }

  ghost function Begin(body: seq<Stmt>): (r: State)
    ensures Inv(r) && r.frames == [] && r.current == Some(ENTRY)
  {
    AllocateLabels(Fresh(), LabelsOfList(body))
  }

  ghost function Build(body: seq<Stmt>, trust: Instr -> bool): (r: State)
    ensures Inv(r)
  {
    JumpTo(CompileList(Begin(body), body, trust), EXIT, Normal)
  }

  ghost function GraphOf(st: State): CFG {
    CFG(ENTRY, EXIT, st.blocks)
  }
}
