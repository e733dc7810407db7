/**
 Continuations matched with places in the finished graph.

 An anchored continuation is a continuation in which every pending piece of code carries
 the builder's state at the moment that code was compiled.  Its entry is the place in the
 graph where that code starts.
 */
module Simulation {
  import opened Wrappers
  import opened Graph
  import opened Syntax
  import opened Semantics
  import opened Building
  import opened Closing
  import opened Shapes
  import opened Steps

  // A place in a graph: about to run instruction `index` of `block`, or to leave it.
  datatype Loc = Loc(block: BlockId, index: nat)

  datatype World = World(F: State, body: seq<Stmt>, trust: Instr -> bool)

  datatype Anchored =
    | ADone
    | ALeave(how: EdgeKind, from: Option<BlockId>)
    | ARun(st: State, s: Stmt, name: Label, k: Anchored)
    | ASeq(st: State, list: seq<Stmt>, k: Anchored)
    | AFall(id: Instr, k: Anchored)
    | AJoin(from: Option<BlockId>, to: BlockId, k: Anchored)
    | ALoop(st: State, loop: Stmt, name: Label, k: Anchored)
    | ABack(st: State, loop: Stmt, name: Label, k: Anchored)
    | ATest(st: State, loop: Stmt, name: Label, k: Anchored)
    | AClause(st: State, sw: Stmt, i: nat, name: Label, k: Anchored)
    | ATrusted(from: Option<BlockId>, to: BlockId, k: Anchored)

  /****** Loops and multiway branches, uniformly ******/

  // A statement whose initialiser, if any, has already run.
  predicate IsLoop(s: Stmt) {
    s.Range? || (s.For? && s.init.None?)
  }

  function TestOf(s: Stmt): Option<Cond> {
    if s.For? then s.test else Some(Unknown)
  }

  function PostOf(s: Stmt): Option<Simple> {
    if s.For? then s.post else None
  }

  predicate IsMulti(s: Stmt) {
    s.Select? || (s.Switch? && s.init.None?)
  }

  ghost function LoopEnd(w: World, st: State, s: Stmt, l: Label): State
    requires Inv(st) && IsLoop(s)
  {
    BodyEnd(st, TestOf(s), PostOf(s), s.loop, l, w.trust)
  }

  ghost function PostEnd(w: World, st: State, s: Stmt, l: Label): State
    requires Inv(st) && IsLoop(s) && PostOf(s).Some?
  {
    SimpleStep(PostStart(st, LoopEnd(w, st, s, l)), PostOf(s).value, w.trust)
  }

  ghost function CaseStart(w: World, st: State, s: Stmt, i: nat, l: Label): (r: State)
    requires Inv(st) && IsMulti(s) && i < |s.clauses|
    ensures Inv(r)
  {
    if s.Switch? then SwitchCase(st, s.clauses, i, l, w.trust) else SelectCase(st, s.clauses, i, l, w.trust)
  }

  // The statements of clause i that are compiled as a list, and the closing fallthrough.
  function CaseList(s: Stmt, i: nat): seq<Stmt>
    requires IsMulti(s) && i < |s.clauses|
  {
    if s.Switch? then Strip(s.clauses[i].body) else s.clauses[i].body
  }

  function CaseTail(s: Stmt, i: nat): seq<Stmt>
    requires IsMulti(s) && i < |s.clauses|
  {
    var body := s.clauses[i].body;
    if s.Switch? && Falls(body) then [body[|body| - 1]] else []
  }

  ghost function CaseEnd(w: World, st: State, s: Stmt, i: nat, l: Label): State
    requires Inv(st) && IsMulti(s) && i < |s.clauses|
  {
    CompileList(CaseStart(w, st, s, i, l), CaseList(s, i), w.trust)
  }

  /****** Erasure, entry, frames ******/

  function Tail(k: Anchored): seq<Stmt> {
    if k.AClause? && IsMulti(k.sw) && k.i < |k.sw.clauses| then CaseTail(k.sw, k.i) else []
  }

  function Erase(k: Anchored): Kont {
    match k
    case ADone => Done
    case ALeave(how, _) => Leave(how)
    case ARun(_, s, l, k') => Run(s, l, Erase(k'))
    case ASeq(_, list, k') => Seq(list + Tail(k'), Erase(k'))
    case AFall(id, k') => Run(FallthroughStmt(id), NO_LABEL, Seq([], Erase(k')))
    case AJoin(_, _, k') => Join(Erase(k'))
    case ALoop(_, s, l, k') => Loop(l, s, Erase(k'))
    case ABack(_, s, l, k') => Back(l, s, Erase(k'))
    case ATest(_, s, l, k') => Test(l, s, Erase(k'))
    case AClause(_, s, i, l, k') => ClauseEnd(l, if s.Switch? && i < |s.clauses| then s.clauses[i + 1..]
      else [], Erase(k'))
    case ATrusted(_, _, k') => Trusted(Erase(k'))
  }

  ghost function At(st: State): Option<Loc> {
    if st.current.Some? && st.current.value < |st.blocks|
      then Some(Loc(st.current.value, |st.blocks[st.current.value].instrs|)) else None
  }

  // The end of a block of the finished graph.
  ghost function EndOf(F: State, from: Option<BlockId>): Option<Loc> {
    if from.Some? && from.value < |F.blocks| then Some(Loc(from.value, |F.blocks[from.value].instrs|)) else None
  }

  ghost function Entry(w: World, k: Anchored): Option<Loc> {
    match k
    case ADone => Some(Loc(EXIT, 0))
    case ALeave(_, from) => EndOf(w.F, from)
    case ARun(st, _, _, _) => At(st)
    case ASeq(st, _, _) => At(st)
    case AFall(_, k') => Entry(w, k')
    case AJoin(from, _, _) => EndOf(w.F, from)
    case ALoop(st, s, l, _) => if Inv(st) && IsLoop(s) then EndOf(w.F, LoopEnd(w, st, s, l).current) else None
    case ABack(st, s, l, _) => if Inv(st) && IsLoop(s) && PostOf(s).Some? then EndOf(w.F, PostEnd(w, st, s, l).current)
      else None
    case ATest(st, _, _, _) => Some(Loc(LoopHeader(st), 0))
    case AClause(st, s, i, l, _) =>
      if Inv(st) && IsMulti(s) && i < |s.clauses| then EndOf(w.F, CaseEnd(w, st, s, i, l).current) else None
    case ATrusted(from, _, _) => EndOf(w.F, from)
  }

  ghost function FramesOf(k: Anchored): seq<Frame> {
    match k
    case ADone => []
    case ALeave(_, _) => []
    case ARun(st, _, _, _) => st.frames
    case ASeq(st, _, _) => st.frames
    case AFall(_, k') => FramesOf(k')
    case AJoin(_, _, k') => FramesOf(k')
    case ALoop(st, s, l, _) => st.frames + [Frame(l, true, LoopFirst(st) + 1, LoopNext(st, PostOf(s).Some?))]
    case ABack(st, s, l, _) => st.frames + [Frame(l, true, LoopFirst(st) + 1, LoopNext(st, PostOf(s).Some?))]
    case ATest(st, _, _, _) => st.frames
    case AClause(st, _, _, l, _) => st.frames + [Frame(l, false, Settled(st), 0)]
    case ATrusted(_, _, k') => FramesOf(k')
  }

  /****** Being anchored in the finished graph ******/

  ghost predicate Leaves(F: State, from: Option<BlockId>, succs: seq<Edge>) {
    from.Some? ==> from.value < |F.blocks| && from.value != EXIT && F.blocks[from.value].succs == succs
  }

  ghost predicate RunOk(w: World, st: State, s: Stmt, l: Label, k: Anchored) {
    && Ready(st, Labels(s)) && FallsPlaced(s) && st.labels == w.F.labels && st.frames == FramesOf(k)
    && Later(Compile(st, s, l, w.trust), w.F)
    && Entry(w, k) == At(Compile(st, s, l, w.trust)) && Tail(k) == []
  }

  ghost predicate SeqOk(w: World, st: State, list: seq<Stmt>, k: Anchored) {
    && Ready(st, LabelsOfList(list)) && FallsPlacedIn(list) && st.labels == w.F.labels && st.frames == FramesOf(k)
    && Later(CompileList(st, list, w.trust), w.F)
    && Entry(w, k) == At(CompileList(st, list, w.trust))
  }

  ghost predicate Good(w: World, k: Anchored) {
    match k
    case ADone => true
    case ALeave(how, from) => from.Some? ==> Leaves(w.F, from, [Edge(from.value, EXIT, how)])
    case ARun(st, s, l, k') => RunOk(w, st, s, l, k') && Good(w, k')
    case ASeq(st, list, k') => SeqOk(w, st, list, k') && Good(w, k')
    case AFall(id, k') => k'.AClause? && Tail(k') == [FallthroughStmt(id)] && Good(w, k')
    case AJoin(from, to, k') =>
      (from.Some? ==> Leaves(w.F, from, [Edge(from.value, to, Normal)])) && Entry(w, k') == Some(Loc(to, 0))
        && Tail(k') == [] && Good(w, k')
    case ALoop(st, s, l, k') => IsLoop(s) && RunOk(w, st, s, l, k') && Good(w, k')
    case ABack(st, s, l, k') => IsLoop(s) && PostOf(s).Some? && RunOk(w, st, s, l, k') && Good(w, k')
    case ATest(st, s, l, k') => IsLoop(s) && RunOk(w, st, s, l, k') && Good(w, k')
    case AClause(st, s, i, l, k') => IsMulti(s) && i < |s.clauses| && RunOk(w, st, s, l, k') && Good(w, k')
    case ATrusted(from, to, k') =>
      && (from.Some? ==> Leaves(w.F, from, [Edge(from.value, to, Normal), Edge(from.value, EXIT, TrustedStop)]))
      && Entry(w, k') == Some(Loc(to, 0)) && Tail(k') == [] && Good(w, k')
  }

  /****** Building anchored continuations ******/

  lemma MakeRun(w: World, st: State, s: Stmt, l: Label, k: Anchored)
    requires RunOk(w, st, s, l, k) && Good(w, k)
    ensures Good(w, ARun(st, s, l, k)) && Entry(w, ARun(st, s, l, k)) == At(st)
      && FramesOf(ARun(st, s, l, k)) == st.frames
    ensures Tail(ARun(st, s, l, k)) == []
  {
    hide RunOk;
  }

  lemma MakeSeq(w: World, st: State, list: seq<Stmt>, k: Anchored)
    requires SeqOk(w, st, list, k) && Good(w, k)
    ensures Good(w, ASeq(st, list, k)) && Entry(w, ASeq(st, list, k)) == At(st)
      && FramesOf(ASeq(st, list, k)) == st.frames
    ensures Tail(ASeq(st, list, k)) == []
  {
    hide SeqOk;
  }

  lemma MakeJoin(w: World, from: Option<BlockId>, to: BlockId, k: Anchored)
    requires from.Some? ==> Leaves(w.F, from, [Edge(from.value, to, Normal)])
    requires Entry(w, k) == Some(Loc(to, 0)) && Tail(k) == [] && Good(w, k)
    ensures Good(w, AJoin(from, to, k)) && Entry(w, AJoin(from, to, k)) == EndOf(w.F, from)
      && FramesOf(AJoin(from, to, k)) == FramesOf(k)
  {
    hide RunOk, SeqOk;
  }

  // The entry of a state whose current block has been closed since.
  lemma EndIsAt(s: State, F: State, to: BlockId, kind: EdgeKind)
    requires Exits(s, F, to, kind) && Base(s)
    ensures EndOf(F, s.current) == At(s)
      && (s.current.Some? ==> Leaves(F, s.current, [Edge(s.current.value, to, kind)]))
  {
    hide BlocksOk;
  }

  lemma ResumesAt(r: State, after: BlockId)
    requires Resumes(r, after)
    ensures At(r) == Some(Loc(after, 0))
  {}

  /****** if ******/

  ghost function ThenPart(w: World, st: State, s: Stmt, k: Anchored): Anchored
    requires Inv(st) && s.If?
  {
    ASeq(IfThen(st, s.cond), s.thn, AJoin(ThenEnd(st, s, w.trust).current, Settled(st) + 1, k))
  }

  ghost function ElsePart(w: World, st: State, s: Stmt, k: Anchored): Anchored
    requires Inv(st) && s.If?
  {
    if s.els.Some? then
      ARun(ElseStart(st, s, w.trust), s.els.value, NO_LABEL, AJoin(ElseEnd(st, s, w.trust).current, Settled(st) + 1, k))
    else k
  }

  lemma IfFacts(w: World, st: State, s: Stmt, l: Label, k: Anchored)
    requires s.If? && s.init.None? && RunOk(w, st, s, l, k)
    ensures IfShape(st, s, w.trust, w.F) && Entry(w, k) == Some(Loc(Settled(st) + 1, 0))
  {
    hide BlocksOk, IfThen, IfElse, CompileIf, NoRepeats, Later, Ready, IfShape, Entry;
    var r := CompileIf(st, s, w.trust);
    ReadyBase(st, Labels(s));
    IfCompiled(st, s, w.trust);
    ResumesAt(r, Settled(st) + 1);
    IfShapeLater(st, s, w.trust, r, w.F);
  }

  lemma ThenGood(w: World, st: State, s: Stmt, l: Label, k: Anchored)
    requires s.If? && s.init.None? && RunOk(w, st, s, l, k) && Good(w, k)
    ensures Good(w, ThenPart(w, st, s, k)) && Entry(w, ThenPart(w, st, s, k)) == Some(Loc(Settled(st), 0))
  {
    hide BlocksOk, IfThen, IfElse, NoRepeats, Later, Ready, CondEdges, CompileList, Compile, Good, Entry, FramesOf,
      Exits, Untouched;
    ReadyBase(st, Labels(s));
    IfFacts(w, st, s, l, k);
    var t, e, after := IfThen(st, s.cond), ThenEnd(st, s, w.trust), Settled(st) + 1;
    ListSteps(t, s.thn, w.trust);
    CompiledBase(t, e, LabelsOfList(s.thn));
    EndIsAt(e, w.F, after, Normal);
    ResumesAt(t, Settled(st));
    MakeJoin(w, e.current, after, k);
    MakeSeq(w, t, s.thn, AJoin(e.current, after, k));
  }

  lemma ElseGood(w: World, st: State, s: Stmt, l: Label, k: Anchored)
    requires s.If? && s.init.None? && RunOk(w, st, s, l, k) && Good(w, k)
    ensures Good(w, ElsePart(w, st, s, k)) && ElseStart(st, s, w.trust).current.Some?
    ensures Entry(w, ElsePart(w, st, s, k)) == Some(Loc(ElseStart(st, s, w.trust).current.value, 0))
  {
    hide BlocksOk, IfThen, IfElse, NoRepeats, Later, Ready, CondEdges, CompileList, Compile, Good, Entry, FramesOf,
      Exits, Untouched;
    ReadyBase(st, Labels(s));
    IfFacts(w, st, s, l, k);
    var u, after := ElseStart(st, s, w.trust), Settled(st) + 1;
    ResumesAt(u, u.current.value);
    if s.els.Some? {
      var e := ElseEnd(st, s, w.trust);
      CompileSteps(u, s.els.value, NO_LABEL, w.trust);
      CompiledBase(u, e, Labels(s.els.value));
      EndIsAt(e, w.F, after, Normal);
      MakeJoin(w, e.current, after, k);
      MakeRun(w, u, s.els.value, NO_LABEL, AJoin(e.current, after, k));
    }
  }

  lemma CompiledBase(st: State, r: State, ls: seq<Label>)
    requires Compiled(st, r, ls)
    ensures Base(r)
  {}

  /****** Loops ******/

  ghost function BodyPart(st: State, s: Stmt, l: Label, k: Anchored): Anchored
    requires Inv(st) && IsLoop(s)
  {
    ASeq(LoopBody(st, TestOf(s), PostOf(s).Some?, l), s.loop, ALoop(st, s, l, k))
  }

  // What a finished round goes on with: the post statement, or the test.
  ghost function NextPart(w: World, st: State, s: Stmt, l: Label, k: Anchored): Anchored
    requires Inv(st) && IsLoop(s)
  {
    if PostOf(s).Some?
      then ARun(PostStart(st, LoopEnd(w, st, s, l)), Exec(PostOf(s).value), NO_LABEL, ABack(st, s, l, k))
    else ATest(st, s, l, k)
  }

  lemma LoopFacts(w: World, st: State, s: Stmt, l: Label, k: Anchored)
    requires IsLoop(s) && RunOk(w, st, s, l, k)
    ensures LoopShape(st, TestOf(s), PostOf(s), s.loop, l, w.trust, w.F)
      && Entry(w, k) == Some(Loc(LoopFirst(st) + 1, 0))
    ensures Compiled(LoopBody(st, TestOf(s), PostOf(s).Some?, l), LoopEnd(w, st, s, l), LabelsOfList(s.loop))
  {
    hide BlocksOk, LoopBody, CompileLoop, NoRepeats, Later, Ready, LoopShape, Entry, CompileList;
    ReadyBase(st, Labels(s));
    var r := CompileLoop(st, TestOf(s), PostOf(s), s.loop, l, w.trust);
    assert r == Compile(st, s, l, w.trust);
    LoopCompiled(st, TestOf(s), PostOf(s), s.loop, l, w.trust);
    ResumesAt(r, LoopFirst(st) + 1);
    LoopShapeLater(st, TestOf(s), PostOf(s), s.loop, l, w.trust, r, w.F);
    assert Ready(LoopBody(st, TestOf(s), PostOf(s).Some?, l), LabelsOfList(s.loop)) by { LoopReady(w, st, s, l); }
    ListSteps(LoopBody(st, TestOf(s), PostOf(s).Some?, l), s.loop, w.trust);
  }

  lemma LoopReady(w: World, st: State, s: Stmt, l: Label)
    requires IsLoop(s) && Inv(st) && LoopShape(st, TestOf(s), PostOf(s), s.loop, l, w.trust, w.F)
    ensures Ready(LoopBody(st, TestOf(s), PostOf(s).Some?, l), LabelsOfList(s.loop))
  {
    hide BlocksOk, LoopBody, Ready, Later;
  }

  lemma MakeLoop(w: World, st: State, s: Stmt, l: Label, k: Anchored)
    requires IsLoop(s) && RunOk(w, st, s, l, k) && Good(w, k)
    ensures Inv(st) && Good(w, ALoop(st, s, l, k)) && Good(w, ATest(st, s, l, k))
      && (PostOf(s).Some? ==> Good(w, ABack(st, s, l, k)))
    ensures Entry(w, ATest(st, s, l, k)) == Some(Loc(LoopHeader(st), 0))
    ensures Entry(w, ALoop(st, s, l, k)) == EndOf(w.F, LoopEnd(w, st, s, l).current)
    ensures PostOf(s).Some? ==> Entry(w, ABack(st, s, l, k)) == EndOf(w.F, PostEnd(w, st, s, l).current)
    ensures FramesOf(ALoop(st, s, l, k)) ==
      st.frames + [Frame(l, true, LoopFirst(st) + 1, LoopNext(st, PostOf(s).Some?))]
    ensures FramesOf(ABack(st, s, l, k)) == FramesOf(ALoop(st, s, l, k))
  {
    hide BlocksOk, LoopEnd, PostEnd, Later, NoRepeats, Compile, Ready, RunOk, SeqOk, EndOf, At, Settled, LoopFirst,
      LoopNext, LoopHeader;
    RunInv(w, st, s, l, k);
  }

  lemma BodyGood(w: World, st: State, s: Stmt, l: Label, k: Anchored)
    requires IsLoop(s) && RunOk(w, st, s, l, k) && Good(w, k)
    ensures Inv(st) && Good(w, BodyPart(st, s, l, k)) && Entry(w, BodyPart(st, s, l, k)) == Some(Loc(LoopFirst(st), 0))
  {
    hide BlocksOk, LoopBody, NoRepeats, Later, Ready, CompileList, Compile, Good, Entry, FramesOf, Exits, Untouched,
      TestEdges, PostShape;
    ReadyBase(st, Labels(s));
    LoopFacts(w, st, s, l, k);
    var t, e := LoopBody(st, TestOf(s), PostOf(s).Some?, l), LoopEnd(w, st, s, l);
    CompiledBase(t, e, LabelsOfList(s.loop));
    EndIsAt(e, w.F, LoopNext(st, PostOf(s).Some?), RoundKind(PostOf(s)));
    ResumesAt(t, LoopFirst(st));
    MakeLoop(w, st, s, l, k);
    MakeSeq(w, t, s.loop, ALoop(st, s, l, k));
  }

  lemma NextGood(w: World, st: State, s: Stmt, l: Label, k: Anchored)
    requires IsLoop(s) && RunOk(w, st, s, l, k) && Good(w, k)
    ensures Inv(st) && Good(w, NextPart(w, st, s, l, k))
    ensures Entry(w, NextPart(w, st, s, l, k)) == Some(Loc(LoopNext(st, PostOf(s).Some?), 0))
    ensures Erase(NextPart(w, st, s, l, k)) == NextRound(l, s, Erase(k))
  {
    hide BlocksOk, LoopBody, NoRepeats, Later, Ready, CompileList, Good, Entry, FramesOf, Exits, Untouched, TestEdges,
      SimpleStep, PostStart, LoopEnd;
    ReadyBase(st, Labels(s));
    LoopFacts(w, st, s, l, k);
    MakeLoop(w, st, s, l, k);
    if PostOf(s).Some? {
      PostGood(w, st, s, l, k);
    }
  }

  lemma PostGood(w: World, st: State, s: Stmt, l: Label, k: Anchored)
    requires IsLoop(s) && PostOf(s).Some? && RunOk(w, st, s, l, k) && Good(w, k)
    ensures Inv(st) && Good(w, NextPart(w, st, s, l, k))
      && Entry(w, NextPart(w, st, s, l, k)) == Some(Loc(LoopNext(st, true), 0))
  {
    hide BlocksOk, LoopBody, NoRepeats, Later, Ready, CompileList, Good, Entry, FramesOf, Exits, Untouched, TestEdges,
      SimpleStep, PostStart;
    ReadyBase(st, Labels(s));
    LoopFacts(w, st, s, l, k);
    MakeLoop(w, st, s, l, k);
    var e := LoopEnd(w, st, s, l);
    var p, q := PostStart(st, e), PostEnd(w, st, s, l);
    var post := PostOf(s).value;
    PostFrames(st, TestOf(s), PostOf(s), l, e);
    ReadyBase(p, []);
    SimpleSteps(p, post, w.trust);
    CompiledBase(p, q, []);
    EndIsAt(q, w.F, LoopHeader(st), LoopBack);
    assert Compile(p, Exec(post), NO_LABEL, w.trust) == q;
    ResumesAt(p, LoopNext(st, true));
    MakeRun(w, p, Exec(post), NO_LABEL, ABack(st, s, l, k));
  }

  lemma PostFrames(st: State, test: Option<Cond>, post: Option<Simple>, l: Label, e: State)
    requires Inv(st) && Inv(e) && LoopSize(st, true) <= |e.blocks| && post.Some?
    requires Extends(LoopBody(st, test, post.Some?, l), e)
    ensures PostStart(st, e).frames == st.frames + [Frame(l, true, LoopFirst(st) + 1, LoopNext(st, true))]
    ensures PostStart(st, e).current == Some(LoopNext(st, true))
  {
    hide BlocksOk;
  }

  /****** switch and select ******/

  ghost function MultiBlock(w: World, st: State, s: Stmt, i: nat, l: Label): BlockId
    requires Inv(st) && IsMulti(s) && i < |s.clauses|
  {
    if s.Switch? then SwitchBlock(st, i) else SelectBlock(st, s.clauses, i, l, w.trust)
  }

  ghost function MultiBlocks(w: World, st: State, s: Stmt, l: Label): (r: seq<BlockId>)
    requires Inv(st) && IsMulti(s)
    ensures |r| == |s.clauses|
  {
    if s.Switch? then SwitchBlocks(st, |s.clauses|) else SelectBlocks(st, s.clauses, |s.clauses|, l, w.trust)
  }

  ghost function CasePart(w: World, st: State, s: Stmt, i: nat, l: Label, k: Anchored): Anchored
    requires Inv(st) && IsMulti(s) && i < |s.clauses|
  {
    ASeq(CaseStart(w, st, s, i, l), CaseList(s, i), AClause(st, s, i, l, k))
  }

  predicate LeavesByFall(s: Stmt, i: nat)
    requires IsMulti(s) && i < |s.clauses|
  {
    s.Switch? && GoesNext(s.clauses, i)
  }

  // The facts about clause i, for switch and select alike.
  ghost predicate CaseShape(w: World, st: State, s: Stmt, i: nat, l: Label)
    requires Inv(st) && IsMulti(s) && i < |s.clauses|
  {
    var e, r := CaseStart(w, st, s, i, l), CaseEnd(w, st, s, i, l);
    && e.labels == st.labels && e.frames == st.frames + [Frame(l, false, Settled(st), 0)]
    && (LeavesByFall(s, i) ==> i + 1 < |s.clauses|)
    && ClauseShape(e, r, LabelsOfList(CaseList(s, i)), MultiBlock(w, st, s, i, l), w.F,
         if LeavesByFall(s, i) then SwitchBlock(st, i + 1)
         else Settled(st), if LeavesByFall(s, i) then EdgeKind.Fallthrough else Normal)
  }

  lemma MultiFacts(w: World, st: State, s: Stmt, l: Label, k: Anchored)
    requires IsMulti(s) && RunOk(w, st, s, l, k)
    ensures Entry(w, k) == Some(Loc(Settled(st), 0)) && Inv(st)
    ensures EndsWith(w.F, Head(st), Instrs(st),
      (if s.Switch? then NoMatch(st, s.clauses) else []) + CaseEdges(Head(st), MultiBlocks(w, st, s, l)))
    ensures s.Switch? ==> SwitchShape(st, s.clauses, l, w.trust, w.F)
    ensures s.Select? ==> SelectShape(st, s.clauses, l, w.trust, w.F)
  {
    hide BlocksOk, NoRepeats, Later, Ready, SwitchClauseShape, SelectClauseShape, CompileSwitch, CompileSelect,
      CaseEdges, NoMatch, SelectBlocks, SwitchBlocks, Instrs, EndsWith;
    ReadyBase(st, Labels(s));
    var cs := s.clauses;
    if s.Switch? {
      var r := CompileSwitch(st, cs, l, w.trust);
      SwitchCompiled(st, cs, l, w.trust);
      ResumesAt(r, Settled(st));
      SwitchShapeLater(st, cs, l, w.trust, r, w.F);
    } else {
      var r := CompileSelect(st, cs, l, w.trust);
      SelectCompiled(st, cs, l, w.trust);
      ResumesAt(r, Settled(st));
      SelectShapeLater(st, cs, l, w.trust, r, w.F);
      assert [] + CaseEdges(Head(st), MultiBlocks(w, st, s, l)) == CaseEdges(Head(st), MultiBlocks(w, st, s, l));
    }
  }

  lemma CaseFacts(w: World, st: State, s: Stmt, i: nat, l: Label, k: Anchored)
    requires IsMulti(s) && RunOk(w, st, s, l, k) && i < |s.clauses|
    ensures Inv(st) && CaseShape(w, st, s, i, l) && FallsPlacedIn(CaseList(s, i))
    ensures s.Switch? ==> FallsOut(s.clauses[i].body) == Falls(s.clauses[i].body)
  {
    hide BlocksOk, NoRepeats, Later, Ready, CompileList, CompileCase, ClauseShape, SwitchAt, SelectAt, Compile,
      FallsPlaced, FallsPlacedIn, FallsPlacedInClause, Entry, FramesOf;
    MultiFacts(w, st, s, l, k);
    CaseFalls(s, i);
    if s.Switch? {
      assert SwitchClauseShape(st, s.clauses, i, l, w.trust, w.F);
      CaseIsList(SwitchCase(st, s.clauses, i, l, w.trust), s.clauses[i].body, w.trust, i + 1 < |s.clauses|);
      SwitchCaseFrames(st, s.clauses, i, l, w.trust);
    } else {
      assert SelectClauseShape(st, s.clauses, i, l, w.trust, w.F);
      SelectCaseFrames(st, s.clauses, i, l, w.trust);
      NoFall(s.clauses[i].body);
    }
  }

  lemma CaseFalls(s: Stmt, i: nat)
    requires IsMulti(s) && FallsPlaced(s) && i < |s.clauses|
    ensures FallsPlacedInClause(s.clauses[i].body, s.Switch? && i + 1 < |s.clauses|)
  {}

  lemma NoFall(body: seq<Stmt>)
    requires FallsPlacedInClause(body, false)
    ensures FallsPlacedIn(body) && !Falls(body)
  {}

  lemma SwitchCaseFrames(st: State, clauses: seq<Clause>, i: nat, l: Label, trust: Instr -> bool)
    requires Inv(st) && i < |clauses|
    ensures SwitchCase(st, clauses, i, l, trust).frames == st.frames + [Frame(l, false, Settled(st), 0)]
  {
    hide BlocksOk, SwitchAt;
  }

  lemma SelectCaseFrames(st: State, clauses: seq<Clause>, i: nat, l: Label, trust: Instr -> bool)
    requires Inv(st) && i < |clauses|
    ensures SelectCase(st, clauses, i, l, trust).frames == st.frames + [Frame(l, false, Settled(st), 0)]
  {
    hide BlocksOk, SelectAt;
  }

  lemma MakeClause(w: World, st: State, s: Stmt, i: nat, l: Label, k: Anchored)
    requires IsMulti(s) && RunOk(w, st, s, l, k) && Good(w, k) && i < |s.clauses|
    ensures Inv(st) && Good(w, AClause(st, s, i, l, k))
    ensures Entry(w, AClause(st, s, i, l, k)) == EndOf(w.F, CaseEnd(w, st, s, i, l).current)
    ensures FramesOf(AClause(st, s, i, l, k)) == st.frames + [Frame(l, false, Settled(st), 0)]
  {
    hide BlocksOk, CaseEnd, Later, NoRepeats, Compile, Ready, RunOk, SeqOk, EndOf, At, Settled;
    RunInv(w, st, s, l, k);
  }

  lemma RunInv(w: World, st: State, s: Stmt, l: Label, k: Anchored)
    requires RunOk(w, st, s, l, k)
    ensures Inv(st)
  {
    hide BlocksOk, Compile, Later, NoRepeats, Entry, Ready, FramesOf, Labels;
    ReadyBase(st, Labels(s));
  }

  lemma CaseGood(w: World, st: State, s: Stmt, i: nat, l: Label, k: Anchored)
    requires IsMulti(s) && RunOk(w, st, s, l, k) && Good(w, k) && i < |s.clauses|
    ensures Inv(st) && Good(w, CasePart(w, st, s, i, l, k))
      && Entry(w, CasePart(w, st, s, i, l, k)) == Some(Loc(MultiBlock(w, st, s, i, l), 0))
  {
    hide BlocksOk, NoRepeats, Later, Ready, CompileList, Compile, Good, Entry, FramesOf, Exits, Untouched, CaseStart,
      CaseList, MultiBlock;
    ReadyBase(st, Labels(s));
    CaseFacts(w, st, s, i, l, k);
    MakeClause(w, st, s, i, l, k);
    var e, r := CaseStart(w, st, s, i, l), CaseEnd(w, st, s, i, l);
    ListSteps(e, CaseList(s, i), w.trust);
    CompiledBase(e, r, LabelsOfList(CaseList(s, i)));
    EndIsAt(r, w.F, if LeavesByFall(s, i) then SwitchBlock(st, i + 1)
      else Settled(st), if LeavesByFall(s, i) then EdgeKind.Fallthrough else Normal);
    ResumesAt(e, MultiBlock(w, st, s, i, l));
    MakeSeq(w, e, CaseList(s, i), AClause(st, s, i, l, k));
  }

  /****** Focusing ******/

  // Anchored continuations that are at a move.
  predicate AtMove(k: Anchored) {
    match k
    case ARun(_, s, _, _) => !s.Block? && !s.VarDecl? && !s.Empty? && InitOf(s).None?
    case ASeq(_, _, _) => false
    case _ => true
  }

  ghost predicate Focused(w: World, k: Anchored, r: Anchored) {
    Good(w, r) && AtMove(r) && Tail(r) == [] && Entry(w, r) == Entry(w, k) && Erase(r) == Focus(Erase(k))
  }

  lemma EmptyList(w: World, st: State, k: Anchored)
    requires SeqOk(w, st, [], k)
    ensures Entry(w, k) == At(st)
  {
    hide BlocksOk, Later, Entry;
  }

  lemma SeqParts(w: World, st: State, list: seq<Stmt>, k: Anchored)
    requires list != [] && SeqOk(w, st, list, k) && Good(w, k)
    ensures Inv(st)
    ensures var rest := ASeq(Compile(st, list[0], NO_LABEL, w.trust), list[1..], k);
      Good(w, rest) && RunOk(w, st, list[0], NO_LABEL, rest)
  {
    hide BlocksOk, Later, NoRepeats, Good, Compile, Step, Live, OpenInRange, Untouched, Entry, FramesOf, Tail;
    var ls, ms := Labels(list[0]), LabelsOfList(list[1..]);
    assert LabelsOfList(list) == ls + ms;
    ReadyBase(st, ls + ms);
    ReadyFirst(st, ls, ms);
    CompileSteps(st, list[0], NO_LABEL, w.trust);
    var s := Compile(st, list[0], NO_LABEL, w.trust);
    ReadyNext(st, s, ls, ms);
    ListSteps(s, list[1..], w.trust);
    var r := CompileList(st, list, w.trust);
    LaterOf(s, r, LabelsOfList(list[1..]));
    LaterTrans(s, r, w.F);
    LabelsOf(st, s, ls);
    MakeSeq(w, s, list[1..], k);
  }

  lemma LaterOf(s: State, r: State, ls: seq<Label>)
    requires Compiled(s, r, ls)
    ensures Later(s, r)
  {}

  lemma LabelsOf(s: State, r: State, ls: seq<Label>)
    requires Compiled(s, r, ls)
    ensures r.labels == s.labels
  {}

  lemma BlockParts(w: World, st: State, list: seq<Stmt>, l: Label, k: Anchored)
    requires RunOk(w, st, Block(list), l, k) && Good(w, k)
    ensures Good(w, ASeq(st, list, k)) && Entry(w, ASeq(st, list, k)) == At(st)
  {
    hide BlocksOk, Later, NoRepeats, Good, Entry, FramesOf, Ready, CompileList;
    ReadyBase(st, Labels(Block(list)));
    MakeSeq(w, st, list, k);
  }

  lemma SkipParts(w: World, st: State, s: Stmt, l: Label, k: Anchored)
    requires RunOk(w, st, s, l, k) && (s == Empty || s == VarDecl([]))
    ensures Entry(w, k) == At(st)
  {
    hide BlocksOk, Later, Entry, Ready;
    ReadyBase(st, Labels(s));
  }

  // A first simple statement x and what is left of s after it.
  lemma FirstParts(w: World, st: State, s: Stmt, x: Simple, rest: Stmt, l: Label, k: Anchored)
    requires RunOk(w, st, s, l, k) && Good(w, k)
    requires (InitOf(s) == Some(x) && rest == WithoutInit(s))
      || (s.VarDecl? && s.specs != [] && x == s.specs[0] && rest == VarDecl(s.specs[1..]))
    ensures Inv(st)
    ensures var r := ARun(SimpleStep(st, x, w.trust), rest, l, k);
      Good(w, r) && RunOk(w, st, Exec(x), NO_LABEL, r)
  {
    hide BlocksOk, Later, NoRepeats, Good, Entry, SimpleStep, Step, Live, OpenInRange, Untouched, CompileIf,
      CompileLoop, CompileSwitch, FallsPlacedInClause, InitStep, Inv;
    ReadyBase(st, Labels(s));
    assert Labels(rest) == Labels(s) && FallsPlaced(rest);
    var none: seq<Label> := [];
    assert none + Labels(s) == Labels(s);
    ReadyFirst(st, none, Labels(s));
    SimpleSteps(st, x, w.trust);
    var t := SimpleStep(st, x, w.trust);
    ReadyNext(st, t, none, Labels(s));
    ReadyBase(t, Labels(s));
    FirstCompile(st, s, x, rest, l, w.trust);
    CompileSteps(t, rest, l, w.trust);
    LaterOf(t, Compile(t, rest, l, w.trust), Labels(rest));
    LaterTrans(t, Compile(t, rest, l, w.trust), w.F);
    LabelsOf(st, t, none);
    MakeRun(w, t, rest, l, k);
    assert Compile(st, Exec(x), NO_LABEL, w.trust) == t;
    RunEntry(w, t, rest, l, k);
  }

  lemma RunEntry(w: World, st: State, s: Stmt, l: Label, k: Anchored)
    ensures Entry(w, ARun(st, s, l, k)) == At(st)
  {}

  lemma FirstCompile(st: State, s: Stmt, x: Simple, rest: Stmt, l: Label, trust: Instr -> bool)
    requires Inv(st)
    requires (InitOf(s) == Some(x) && rest == WithoutInit(s))
      || (s.VarDecl? && s.specs != [] && x == s.specs[0] && rest == VarDecl(s.specs[1..]))
    ensures Compile(SimpleStep(st, x, trust), rest, l, trust) == Compile(st, s, l, trust)
    ensures SimpleStep(st, x, trust).frames == st.frames
  {
    hide BlocksOk, SimpleStep, CompileLoop, CompileSwitch, IfThen, IfElse, CompileList, IfDone;
  }

  lemma NoTail(w: World, st: State, s: Stmt, l: Label, k: Anchored)
    requires RunOk(w, st, s, l, k)
    ensures Tail(k) == []
  {}

  lemma AtMoveFocused(k: Anchored)
    requires AtMove(k)
    ensures Focus(Erase(k)) == Erase(k)
  {}

  lemma FirstFocused(w: World, st: State, s: Stmt, x: Simple, rest: Stmt, l: Label, k: Anchored) returns (r: Anchored)
    requires RunOk(w, st, s, l, k) && Good(w, k)
    requires (InitOf(s) == Some(x) && rest == WithoutInit(s))
      || (s.VarDecl? && s.specs != [] && x == s.specs[0] && rest == VarDecl(s.specs[1..]))
    ensures Focused(w, ARun(st, s, l, k), r)
  {
    hide BlocksOk, RunOk, Good, SimpleStep, Inv;
    FirstParts(w, st, s, x, rest, l, k);
    var next := ARun(SimpleStep(st, x, w.trust), rest, l, k);
    MakeRun(w, st, Exec(x), NO_LABEL, next);
    r := ARun(st, Exec(x), NO_LABEL, next);
    assert Erase(next) == Run(rest, l, Erase(k));
    assert Erase(r) == Run(Exec(x), NO_LABEL, Erase(next));
    RunEntry(w, st, s, l, k);
  }

  lemma ListHead(st: State, t: State, list: seq<Stmt>, k: Anchored)
    requires list != []
    ensures var head := ARun(st, list[0], NO_LABEL, ASeq(t, list[1..], k));
      Focus(Erase(ASeq(st, list, k))) == Focus(Erase(head))
        && KontWeight(Erase(head)) < KontWeight(Erase(ASeq(st, list, k)))
  {
    var all := list + Tail(k);
    assert all[0] == list[0] && all[1..] == list[1..] + Tail(k);
  }

  lemma {:induction false} FocusGood(w: World, k: Anchored) returns (r: Anchored)
    requires Good(w, k) && Entry(w, k).Some? && Tail(k) == []
    ensures Focused(w, k, r)
    decreases KontWeight(Erase(k))
  {
    hide BlocksOk, RunOk, SeqOk, SimpleStep, Compile, Inv;
    if AtMove(k) {
      AtMoveFocused(k);
      r := k;
    } else if k.ASeq? {
      r := FocusSeq(w, k.st, k.list, k.k);
    } else {
      var s := k.s;
      NoTail(w, k.st, s, k.name, k.k);
      if s.Block? {
        BlockParts(w, k.st, s.list, k.name, k.k);
        assert s.list + [] == s.list;
        r := FocusGood(w, ASeq(k.st, s.list, k.k));
      } else if s == Empty || s == VarDecl([]) {
        SkipParts(w, k.st, s, k.name, k.k);
        r := FocusGood(w, k.k);
      } else if s.VarDecl? {
        r := FirstFocused(w, k.st, s, s.specs[0], VarDecl(s.specs[1..]), k.name, k.k);
      } else {
        r := FirstFocused(w, k.st, s, InitOf(s).value, WithoutInit(s), k.name, k.k);
      }
    }
  }

  lemma TailIs(k: Anchored)
    requires Tail(k) != []
    ensures k.AClause? && Tail(k) == [FallthroughStmt(Tail(k)[0].id)]
  {}

  lemma MakeFall(w: World, id: Instr, k: Anchored)
    requires k.AClause? && Tail(k) == [FallthroughStmt(id)] && Good(w, k)
    ensures Good(w, AFall(id, k)) && AtMove(AFall(id, k)) && Tail(AFall(id, k)) == []
      && Entry(w, AFall(id, k)) == Entry(w, k)
  {
    hide RunOk, LoopEnd, CaseEnd;
  }

  lemma SeqEntry(w: World, st: State, list: seq<Stmt>, k: Anchored)
    ensures Entry(w, ASeq(st, list, k)) == At(st) && Tail(ASeq(st, list, k)) == []
  {}

  lemma {:induction false} FocusSeq(w: World, st: State, list: seq<Stmt>, k: Anchored) returns (r: Anchored)
    requires SeqOk(w, st, list, k) && Good(w, k) && Entry(w, ASeq(st, list, k)).Some?
    ensures Focused(w, ASeq(st, list, k), r)
    decreases KontWeight(Erase(ASeq(st, list, k))), 0
  {
    hide BlocksOk, RunOk, SeqOk, SimpleStep, Compile, Inv, Good, Entry, At;
    SeqEntry(w, st, list, k);
    if list != [] {
      SeqParts(w, st, list, k);
      var rest := ASeq(Compile(st, list[0], NO_LABEL, w.trust), list[1..], k);
      ListHead(st, rest.st, list, k);
      MakeRun(w, st, list[0], NO_LABEL, rest);
      r := FocusGood(w, ARun(st, list[0], NO_LABEL, rest));
    } else {
      EmptyList(w, st, k);
      assert [] + Tail(k) == Tail(k);
      if Tail(k) == [] {
        r := FocusGood(w, k);
      } else {
        TailIs(k);
        r := AFall(Tail(k)[0].id, k);
        MakeFall(w, r.id, k);
        FallFocused(st, k, r.id);
      }
    }
  }

  lemma FallFocused(st: State, k: Anchored, id: Instr)
    requires Tail(k) == [FallthroughStmt(id)]
    ensures Focus(Erase(ASeq(st, [], k))) == Erase(AFall(id, k))
  {
    var all := [] + Tail(k);
    assert all[0] == FallthroughStmt(id) && all[1..] == [];
  }
}
