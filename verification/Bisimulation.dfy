/**
 The machine and the finished graph make the same moves.
 */
module Bisimulation {
  import opened Wrappers
  import opened Graph
  import opened Syntax
  import opened Semantics
  import opened Building
  import opened Closing
  import opened Shapes
  import opened Steps
  import opened Simulation

  /****** Walking a graph one instruction or edge at a time ******/

  datatype GraphMove = GraphMove(event: Event, next: Loc)

  function EdgeMoves(succs: seq<Edge>): (r: seq<GraphMove>)
    ensures |r| == |succs|
    ensures forall j :: 0 <= j < |succs| ==> r[j] == GraphMove(Jump(succs[j].kind), Loc(succs[j].to, 0))
  {
    seq(|succs|, j requires 0 <= j < |succs| => GraphMove(Jump(succs[j].kind), Loc(succs[j].to, 0)))
  }

  function GraphMoves(g: CFG, at: Loc): seq<GraphMove> {
    if at.block >= |g.blocks| then []
    else
      var b := g.blocks[at.block];
      if at.index < |b.instrs| then [GraphMove(Event.Emit(b.instrs[at.index]), Loc(at.block, at.index + 1))]
      else EdgeMoves(b.succs)
  }

  /****** Transfers of control ******/

  // k' is anchored where the builder's edge leads and erases to what the machine goes on with.
  ghost predicate Lands(w: World, k': Anchored, c: Kont, b: BlockId) {
    Good(w, k') && Tail(k') == [] && Erase(k') == c && Entry(w, k') == Some(Loc(b, 0))
  }

  ghost predicate Agree(w: World, k': Anchored, c: Option<Kont>, b: Option<BlockId>) {
    (c.Some? <==> b.Some?) && (c.Some? ==> Lands(w, k', c.value, b.value))
  }

  lemma PushedFrame(frames: seq<Frame>, f: Frame, m: Label)
    ensures ResolveBreak(frames + [f], m) == if m == NO_LABEL || f.name == m then Some(f.breakTo)
      else ResolveBreak(frames, m)
    ensures ResolveContinue(frames + [f], m) == if f.isLoop && (m == NO_LABEL || f.name == m) then Some(f.continueTo)
      else ResolveContinue(frames, m)
  {
    assert (frames + [f])[..|frames|] == frames;
  }

  // Continuations that are neither a loop's nor a clause's pass every transfer on.
  predicate PassesOn(k: Anchored) {
    k.ARun? || k.ASeq? || k.AFall? || k.AJoin? || k.ATrusted? || k.ATest?
  }

  lemma PassOn(w: World, k: Anchored, m: Label)
    requires Good(w, k) && PassesOn(k)
    ensures Good(w, k.k) && FramesOf(k.k) == FramesOf(k)
    ensures BreakTo(Erase(k), m) == BreakTo(Erase(k.k), m) && ContinueTo(Erase(k), m) == ContinueTo(Erase(k.k), m)
  {
    hide BlocksOk, Ready, Later, Compile, CompileList, Entry;
  }

  lemma OfLoop(w: World, k: Anchored, m: Label)
    requires Good(w, k) && (k.ALoop? || k.ABack?)
    ensures IsLoop(k.loop) && RunOk(w, k.st, k.loop, k.name, k.k) && Good(w, k.k) && FramesOf(k.k) == k.st.frames
    ensures ResolveBreak(FramesOf(k), m) == if Names(m, k.name) then Some(LoopFirst(k.st) + 1)
      else ResolveBreak(k.st.frames, m)
    ensures ResolveContinue(FramesOf(k), m) == if Names(m, k.name) then Some(LoopNext(k.st, PostOf(k.loop).Some?))
      else ResolveContinue(k.st.frames, m)
    ensures BreakTo(Erase(k), m) == if Names(m, k.name) then Some(Erase(k.k)) else BreakTo(Erase(k.k), m)
    ensures ContinueTo(Erase(k), m) == if Names(m, k.name) then Some(NextRound(k.name, k.loop, Erase(k.k)))
      else ContinueTo(Erase(k.k), m)
  {
    hide BlocksOk, Inv, Ready, Later, Compile, CompileList, Entry, LoopEnd, PostEnd, LoopFirst, LoopNext, NextRound;
    PushedFrame(k.st.frames, Frame(k.name, true, LoopFirst(k.st) + 1, LoopNext(k.st, PostOf(k.loop).Some?)), m);
  }

  lemma OfClause(w: World, k: Anchored, m: Label)
    requires Good(w, k) && k.AClause?
    ensures IsMulti(k.sw) && k.i < |k.sw.clauses| && RunOk(w, k.st, k.sw, k.name, k.k) && Good(w, k.k)
      && FramesOf(k.k) == k.st.frames
    ensures ResolveBreak(FramesOf(k), m) == if Names(m, k.name) then Some(Settled(k.st))
      else ResolveBreak(k.st.frames, m)
    ensures ResolveContinue(FramesOf(k), m) == ResolveContinue(k.st.frames, m)
    ensures BreakTo(Erase(k), m) == if Names(m, k.name) then Some(Erase(k.k)) else BreakTo(Erase(k.k), m)
    ensures ContinueTo(Erase(k), m) == ContinueTo(Erase(k.k), m)
  {
    hide BlocksOk, Ready, Later, Compile, CompileList, Entry;
    PushedFrame(k.st.frames, Frame(k.name, false, Settled(k.st), 0), m);
  }

  lemma LoopExit(w: World, st: State, s: Stmt, l: Label, k: Anchored)
    requires IsLoop(s) && RunOk(w, st, s, l, k)
    ensures Entry(w, k) == Some(Loc(LoopFirst(st) + 1, 0))
  {
    hide RunOk, Compiled, LoopShape;
    LoopFacts(w, st, s, l, k);
  }

  lemma MultiExit(w: World, st: State, s: Stmt, l: Label, k: Anchored)
    requires IsMulti(s) && RunOk(w, st, s, l, k)
    ensures Entry(w, k) == Some(Loc(Settled(st), 0))
  {
    hide RunOk, SwitchShape, SelectShape, EndsWith, Inv;
    MultiFacts(w, st, s, l, k);
  }

  // The frame stack resolves a break exactly as unwinding the continuation does.
  lemma {:induction false} BreakAgrees(w: World, k: Anchored, m: Label) returns (k': Anchored)
    requires Good(w, k)
    ensures Agree(w, k', BreakTo(Erase(k), m), ResolveBreak(FramesOf(k), m))
    decreases k
  {
    hide Good, Entry, FramesOf, Erase, BreakTo, ResolveBreak, RunOk;
    if PassesOn(k) {
      PassOn(w, k, m);
      k' := BreakAgrees(w, k.k, m);
    } else if k.ALoop? || k.ABack? {
      OfLoop(w, k, m);
      if Names(m, k.name) {
        LoopExit(w, k.st, k.loop, k.name, k.k);
        NoTail(w, k.st, k.loop, k.name, k.k);
        k' := k.k;
      } else {
        k' := BreakAgrees(w, k.k, m);
      }
    } else if k.AClause? {
      OfClause(w, k, m);
      if Names(m, k.name) {
        MultiExit(w, k.st, k.sw, k.name, k.k);
        NoTail(w, k.st, k.sw, k.name, k.k);
        k' := k.k;
      } else {
        k' := BreakAgrees(w, k.k, m);
      }
    } else {
      k' := k;
      NoTarget(k, m);
    }
  }

  lemma NoTarget(k: Anchored, m: Label)
    requires k.ADone? || k.ALeave?
    ensures BreakTo(Erase(k), m).None? && ResolveBreak(FramesOf(k), m).None?
    ensures ContinueTo(Erase(k), m).None? && ResolveContinue(FramesOf(k), m).None?
  {}

  lemma {:induction false} ContinueAgrees(w: World, k: Anchored, m: Label) returns (k': Anchored)
    requires Good(w, k)
    ensures Agree(w, k', ContinueTo(Erase(k), m), ResolveContinue(FramesOf(k), m))
    decreases k
  {
    hide Good, Entry, FramesOf, Erase, ContinueTo, ResolveContinue, RunOk, NextPart, NextRound;
    if PassesOn(k) {
      PassOn(w, k, m);
      k' := ContinueAgrees(w, k.k, m);
    } else if k.ALoop? || k.ABack? {
      OfLoop(w, k, m);
      NextGood(w, k.st, k.loop, k.name, k.k);
      NextTail(w, k.st, k.loop, k.name, k.k);
      if Names(m, k.name) { k' := NextPart(w, k.st, k.loop, k.name, k.k); } else { k' := ContinueAgrees(w, k.k, m); }
    } else if k.AClause? {
      OfClause(w, k, m);
      k' := ContinueAgrees(w, k.k, m);
    } else {
      k' := k;
      NoTarget(k, m);
    }
  }

  // What the machine holds at the start of clause i is the erased clause.
  lemma CaseErases(w: World, st: State, s: Stmt, i: nat, l: Label, k: Anchored)
    requires IsMulti(s) && i < |s.clauses| && Inv(st)
    ensures Erase(CasePart(w, st, s, i, l, k)) ==
      Seq(s.clauses[i].body, ClauseEnd(l, Rest(s.clauses, i, s.Switch?), Erase(k)))
  {
    hide BlocksOk, Inv, CaseStart;
    assert CaseList(s, i) + CaseTail(s, i) == s.clauses[i].body;
  }

  /****** goto ******/

  ghost predicate Found(w: World, k': Anchored, c: Kont, wanted: Label) {
    wanted in w.F.labels && Lands(w, k', c, w.F.labels[wanted])
  }

  lemma LabelParts(w: World, st: State, m: Label, body: Stmt, l: Label, k: Anchored)
    requires RunOk(w, st, Labeled(m, body), l, k) && Good(w, k)
    ensures Inv(st) && Good(w, ARun(EnterLabel(st, m), body, m, k)) && m in w.F.labels
      && RunOk(w, EnterLabel(st, m), body, m, k)
    ensures Entry(w, ARun(EnterLabel(st, m), body, m, k)) == Some(Loc(w.F.labels[m], 0))
    ensures st.current.Some? ==>
      EndsWith(w.F, st.current.value, st.blocks[st.current.value].instrs,
        [Edge(st.current.value, w.F.labels[m], Normal)])
  {
    hide BlocksOk, Later, NoRepeats, Entry, FramesOf, Step, Compile, EnterLabel, Good;
    EnterLabelSteps(st, m, Labels(body));
    var t := EnterLabel(st, m);
    assert m in [m] + Labels(body);
    LabelCompile(st, m, body, l, w.trust);
    CompileSteps(t, body, m, w.trust);
    LabelEntered(st, t, Own(st, [m]));
    LaterOf(t, Compile(t, body, m, w.trust), Labels(body));
    LaterTrans(t, Compile(t, body, m, w.trust), w.F);
    if st.current.Some? {
      EndsLater(t, w.F, st.current.value, st.blocks[st.current.value].instrs,
        [Edge(st.current.value, w.F.labels[m], Normal)]);
    }
    ResumesAt(t, st.labels[m]);
    MakeRun(w, t, body, m, k);
  }

  lemma LabelEntered(st: State, t: State, X: set<BlockId>)
    requires Step(st, t, X)
    ensures t.labels == st.labels
  {}

  lemma LabelCompile(st: State, m: Label, body: Stmt, l: Label, trust: Instr -> bool)
    requires Inv(st)
    ensures Compile(st, Labeled(m, body), l, trust) == Compile(EnterLabel(st, m), body, m, trust)
    ensures EnterLabel(st, m).frames == st.frames
  {
    hide BlocksOk, EnterLabel;
  }

  ghost predicate Finds(w: World, k': Anchored, c: Option<Kont>, wanted: Label, labels: seq<Label>) {
    (wanted in labels <==> c.Some?) && (c.Some? ==> Found(w, k', c.value, wanted))
  }

  lemma InitParts(w: World, st: State, s: Stmt, l: Label, k: Anchored) returns (t: State)
    requires RunOk(w, st, s, l, k) && Good(w, k)
    ensures RunOk(w, t, WithoutInit(s), l, k)
    ensures Labels(WithoutInit(s)) == Labels(s)
  {
    hide BlocksOk, Good, Entry, FramesOf, Ready, Later, Compile, CompileList, RunOk, SimpleStep;
    if InitOf(s).Some? {
      FirstParts(w, st, s, InitOf(s).value, WithoutInit(s), l, k);
      t := SimpleStep(st, InitOf(s).value, w.trust);
      GoodRun(w, t, WithoutInit(s), l, k);
    } else {
      t := st;
      assert WithoutInit(s) == s;
    }
  }

  lemma GoodRun(w: World, st: State, s: Stmt, l: Label, k: Anchored)
    requires Good(w, ARun(st, s, l, k))
    ensures RunOk(w, st, s, l, k) && Good(w, k)
  {
    hide RunOk;
  }

  lemma GoodSeq(w: World, st: State, list: seq<Stmt>, k: Anchored)
    requires Good(w, ASeq(st, list, k))
    ensures SeqOk(w, st, list, k) && Good(w, k)
  {
    hide SeqOk, RunOk;
  }

  lemma {:induction false} FindAgrees(w: World, st: State, s: Stmt, l: Label, k: Anchored, wanted: Label)
    returns (k': Anchored)
    requires RunOk(w, st, s, l, k) && Good(w, k)
    ensures Finds(w, k', Find(s, l, Erase(k), wanted), wanted, Labels(s))
    decreases s, 1
  {
    hide BlocksOk, RunOk, SeqOk, Good, Entry, FramesOf, Ready, Later, Compile, CompileList, LoopBody, EnterLabel,
      IfThen, CaseStart;
    k' := k;
    NoTail(w, st, s, l, k);
    match s {
      case Block(list) =>
        BlockParts(w, st, list, l, k);
        GoodSeq(w, st, list, k);
        assert list + [] == list;
        k' := FindInAgrees(w, st, list, k, wanted);
      case Labeled(m, body) =>
        LabelParts(w, st, m, body, l, k);
        if m == wanted {
          k' := ARun(EnterLabel(st, m), body, m, k);
        } else {
          k' := FindAgrees(w, EnterLabel(st, m), body, m, k, wanted);
        }
      case If(_, cond, thn, els) =>
        var t := InitParts(w, st, s, l, k);
        k' := FindIf(w, t, s, l, k, wanted);
      case For(_, _, _, loop) =>
        var t := InitParts(w, st, s, l, k);
        k' := FindLoop(w, t, WithoutInit(s), l, k, wanted);
      case Range(loop) =>
        k' := FindLoop(w, st, s, l, k, wanted);
      case Switch(_, clauses) =>
        var t := InitParts(w, st, s, l, k);
        k' := FindCases(w, t, WithoutInit(s), |clauses|, l, k, wanted);
      case Select(clauses) =>
        k' := FindCases(w, st, s, |clauses|, l, k, wanted);
      case _ =>
    }
  }

  lemma {:induction false} FindIf(w: World, st: State, s: Stmt, l: Label, k: Anchored, wanted: Label)
    returns (k': Anchored)
    requires s.If? && RunOk(w, st, WithoutInit(s), l, k) && Good(w, k)
    ensures Finds(w, k', Find(s, l, Erase(k), wanted), wanted, Labels(s))
    decreases s, 0
  {
    hide BlocksOk, RunOk, SeqOk, Good, Entry, FramesOf, Ready, Later, Compile, CompileList, IfThen;
    k' := k;
    var s1 := WithoutInit(s);
    IfInner(w, st, s1, l, k);
    var join := AJoin(ThenEnd(st, s1, w.trust).current, Settled(st) + 1, k);
    assert s.thn + [] == s.thn;
    k' := FindInAgrees(w, IfThen(st, s.cond), s.thn, join, wanted);
    if wanted !in LabelsOfList(s.thn) && s.els.Some? {
      var after := AJoin(ElseEnd(st, s1, w.trust).current, Settled(st) + 1, k);
      k' := FindAgrees(w, ElseStart(st, s1, w.trust), s.els.value, NO_LABEL, after, wanted);
    }
  }

  lemma IfInner(w: World, st: State, s: Stmt, l: Label, k: Anchored)
    requires s.If? && s.init.None? && RunOk(w, st, s, l, k) && Good(w, k)
    ensures Inv(st)
    ensures var join := AJoin(ThenEnd(st, s, w.trust).current, Settled(st) + 1, k);
      SeqOk(w, IfThen(st, s.cond), s.thn, join) && Good(w, join)
    ensures s.els.Some? ==>
      var join := AJoin(ElseEnd(st, s, w.trust).current, Settled(st) + 1, k);
      RunOk(w, ElseStart(st, s, w.trust), s.els.value, NO_LABEL, join) && Good(w, join)
  {
    hide BlocksOk, SeqOk, Good, Entry, FramesOf, IfThen, IfElse, CompileList, Compile, NoRepeats, Later;
    ReadyBase(st, Labels(s));
    hide RunOk;
    ThenGood(w, st, s, l, k);
    GoodSeq(w, IfThen(st, s.cond), s.thn, AJoin(ThenEnd(st, s, w.trust).current, Settled(st) + 1, k));
    ElseGood(w, st, s, l, k);
    if s.els.Some? {
      GoodRun(w, ElseStart(st, s, w.trust), s.els.value, NO_LABEL,
        AJoin(ElseEnd(st, s, w.trust).current, Settled(st) + 1, k));
    }
  }

  lemma {:induction false} FindLoop(w: World, st: State, s: Stmt, l: Label, k: Anchored, wanted: Label)
    returns (k': Anchored)
    requires IsLoop(s) && RunOk(w, st, s, l, k) && Good(w, k)
    ensures Finds(w, k', Find(s, l, Erase(k), wanted), wanted, Labels(s))
    decreases s.loop, 1
  {
    hide BlocksOk, RunOk, SeqOk, Good, Entry, FramesOf, Ready, Later, Compile, CompileList, LoopBody, Found;
    BodyGood(w, st, s, l, k);
    GoodSeq(w, LoopBody(st, TestOf(s), PostOf(s).Some?, l), s.loop, ALoop(st, s, l, k));
    assert s.loop + [] == s.loop;
    k' := FindInAgrees(w, LoopBody(st, TestOf(s), PostOf(s).Some?, l), s.loop, ALoop(st, s, l, k), wanted);
  }

  lemma {:induction false} FindInAgrees(w: World, st: State, list: seq<Stmt>, k: Anchored, wanted: Label)
    returns (k': Anchored)
    requires SeqOk(w, st, list, k) && Good(w, k)
    ensures Finds(w, k', FindIn(list + Tail(k), Erase(k), wanted), wanted, LabelsOfList(list))
    decreases list, 0
  {
    hide BlocksOk, RunOk, SeqOk, Good, Entry, FramesOf, Ready, Later, Compile, CompileList, Found;
    k' := k;
    if list == [] {
      assert [] + Tail(k) == Tail(k);
      NoLabelsInTail(k, wanted);
    } else {
      SeqParts(w, st, list, k);
      var rest := ASeq(Compile(st, list[0], NO_LABEL, w.trust), list[1..], k);
      GoodSeq(w, rest.st, list[1..], k);
      var all := list + Tail(k);
      assert all[0] == list[0] && all[1..] == list[1..] + Tail(k);
      k' := FindAgrees(w, st, list[0], NO_LABEL, rest, wanted);
      if wanted !in Labels(list[0]) {
        k' := FindInAgrees(w, rest.st, list[1..], k, wanted);
      }
    }
  }

  lemma NoLabelsInTail(k: Anchored, wanted: Label)
    ensures FindIn(Tail(k), Erase(k), wanted).None?
  {
    if Tail(k) != [] {
      assert Tail(k)[0].FallthroughStmt? && Tail(k)[1..] == [];
    }
  }

  lemma {:induction false} FindCases(w: World, st: State, s: Stmt, n: nat, l: Label, k: Anchored, wanted: Label)
    returns (k': Anchored)
    requires IsMulti(s) && n <= |s.clauses| && RunOk(w, st, s, l, k) && Good(w, k)
    ensures Finds(w, k', FindInClauses(s.clauses, n, l, s.Switch?, Erase(k), wanted), wanted,
      LabelsOfClauses(s.clauses, n))
    decreases s.clauses, n
  {
    hide BlocksOk, RunOk, SeqOk, Good, Entry, FramesOf, Ready, Later, Compile, CompileList, CaseStart, Found, Inv, Find,
      CaseTail;
    k' := k;
    if n > 0 {
      var i := n - 1;
      k' := FindCases(w, st, s, i, l, k, wanted);
      if wanted !in LabelsOfClauses(s.clauses, i) {
        CaseInner(w, st, s, i, l, k);
        CaseErases(w, st, s, i, l, k);
        CaseLabels(w, st, s, i, l, k);
        k' := FindInAgrees(w, CaseStart(w, st, s, i, l), CaseList(s, i), AClause(st, s, i, l, k), wanted);
      }
    }
  }

  lemma CaseInner(w: World, st: State, s: Stmt, i: nat, l: Label, k: Anchored)
    requires IsMulti(s) && RunOk(w, st, s, l, k) && Good(w, k) && i < |s.clauses|
    ensures Inv(st) && SeqOk(w, CaseStart(w, st, s, i, l), CaseList(s, i), AClause(st, s, i, l, k))
      && Good(w, AClause(st, s, i, l, k))
    ensures CaseList(s, i) == s.clauses[i].body || CaseList(s, i) == s.clauses[i].body[..|s.clauses[i].body| - 1]
  {
    hide RunOk, SeqOk, Good, CaseStart;
    CaseGood(w, st, s, i, l, k);
    GoodSeq(w, CaseStart(w, st, s, i, l), CaseList(s, i), AClause(st, s, i, l, k));
  }

  lemma CaseLabels(w: World, st: State, s: Stmt, i: nat, l: Label, k: Anchored)
    requires IsMulti(s) && i < |s.clauses| && RunOk(w, st, s, l, k)
    ensures LabelsOfList(CaseList(s, i)) == LabelsOfList(s.clauses[i].body)
  {
    hide BlocksOk, Ready, Later, Compile, CompileList, CompileCase, Entry, FramesOf;
    ReadyBase(st, Labels(s));
    if s.Switch? { CaseIsList(st, s.clauses[i].body, w.trust, i + 1 < |s.clauses|); }
  }

  /****** Moves ******/

  ghost predicate MoveMatches(w: World, m: Move, gm: GraphMove, k: Anchored) {
    Good(w, k) && Tail(k) == [] && Erase(k) == m.next && Entry(w, k) == Some(gm.next) && m.event == gm.event
  }

  // The machine at k and the graph at k's entry have the same moves, in the same order.
  ghost predicate MovesMatch(w: World, k: Anchored, next: seq<Anchored>) {
    Entry(w, k).Some? &&
    var ms, gs := Moves(w.trust, w.body, Erase(k)), GraphMoves(GraphOf(w.F), Entry(w, k).value);
    |next| == |ms| == |gs| && forall j :: 0 <= j < |next| ==> MoveMatches(w, ms[j], gs[j], next[j])
  }

  ghost predicate Finished(w: World) {
    && BlocksOk(w.F.blocks) && w.F.blocks[EXIT].instrs == []
    && (exists k :: Good(w, k) && Root(w, k))
    && (forall m :: m in w.F.labels <==> m in LabelsOfList(w.body))
  }

  ghost predicate Root(w: World, k: Anchored) {
    k.ASeq? && k.list == w.body && k.k.ALeave? && k.k.how == Normal && Entry(w, k).Some?
  }

  // The graph's moves at the end of a block.
  lemma MovesOut(F: State, from: Option<BlockId>, es: seq<Edge>)
    requires EndOf(F, from).Some? && Leaves(F, from, es)
    ensures GraphMoves(GraphOf(F), EndOf(F, from).value) == EdgeMoves(es)
  {}

  // A block with one way out.
  lemma OneWay(w: World, k: Anchored, from: Option<BlockId>, e: Edge, k': Anchored)
    requires Entry(w, k).Some? && Entry(w, k) == EndOf(w.F, from) && Leaves(w.F, from, [e])
    requires Good(w, k') && Tail(k') == [] && Entry(w, k') == Some(Loc(e.to, 0))
    requires Moves(w.trust, w.body, Erase(k)) == [Move(Jump(e.kind), Erase(k'))]
    ensures MovesMatch(w, k, [k'])
  {
    hide Good, Moves, Erase, Entry, EndOf, Leaves, GraphMoves, Tail;
    MovesOut(w.F, from, [e]);
  }

  lemma TwoWays(w: World, k: Anchored, from: Option<BlockId>, e: Edge, k1: Anchored, f: Edge, k2: Anchored)
    requires Entry(w, k).Some? && Entry(w, k) == EndOf(w.F, from) && Leaves(w.F, from, [e, f])
    requires Good(w, k1) && Tail(k1) == [] && Entry(w, k1) == Some(Loc(e.to, 0))
    requires Good(w, k2) && Tail(k2) == [] && Entry(w, k2) == Some(Loc(f.to, 0))
    requires Moves(w.trust, w.body, Erase(k)) == [Move(Jump(e.kind), Erase(k1)), Move(Jump(f.kind), Erase(k2))]
    ensures MovesMatch(w, k, [k1, k2])
  {
    hide Good, Moves, Erase, Entry, EndOf, Leaves, GraphMoves, Tail;
    MovesOut(w.F, from, [e, f]);
  }

  // The two outcomes of a condition, as far as it allows them.
  lemma CondWays(w: World, k: Anchored, c: BlockId, cond: Cond, t: BlockId, k1: Anchored, e: BlockId, k2: Anchored)
    returns (next: seq<Anchored>)
    requires Entry(w, k).Some? && Entry(w, k) == EndOf(w.F, Some(c)) && Leaves(w.F, Some(c), CondEdges(cond, c, t, e))
    requires Good(w, k1) && Tail(k1) == [] && Entry(w, k1) == Some(Loc(t, 0))
    requires Good(w, k2) && Tail(k2) == [] && Entry(w, k2) == Some(Loc(e, 0))
    requires Moves(w.trust, w.body, Erase(k)) ==
      When(Allows(cond, true), Move(Jump(IfTrue), Erase(k1))) +
        When(Allows(cond, false), Move(Jump(IfFalse), Erase(k2)))
    ensures MovesMatch(w, k, next)
  {
    hide Good, Moves, Erase, Entry, EndOf, Leaves, GraphMoves, Tail;
    MovesOut(w.F, Some(c), CondEdges(cond, c, t, e));
    next := (if Allows(cond, true) then [k1] else []) + (if Allows(cond, false) then [k2] else []);
  }

  // An instruction of the current block, followed by what comes after it.
  lemma Emits(w: World, st: State, s: Stmt, l: Label, k: Anchored, id: Instr, k': Anchored)
    requires Inv(st) && At(st).Some? && Head(st) < |w.F.blocks| && Instrs(st) + [id] <= w.F.blocks[Head(st)].instrs
    requires Moves(w.trust, w.body, Run(s, l, Erase(k))) == [Move(Event.Emit(id), Erase(k'))]
    requires Good(w, k') && Tail(k') == [] && Entry(w, k') == Some(Loc(Head(st), |Instrs(st)| + 1))
    ensures MovesMatch(w, ARun(st, s, l, k), [k'])
  {
    hide Good, Moves, BlocksOk, Inv, FramesOf, LoopEnd, PostEnd, CaseEnd, EdgeMoves;
    var b := w.F.blocks[Head(st)];
    assert Instrs(st) == st.blocks[Head(st)].instrs;
    assert b.instrs[|Instrs(st)|] == (Instrs(st) + [id])[|Instrs(st)|];
  }

  lemma SimpleMoves(w: World, st: State, x: Simple, l: Label, k: Anchored) returns (next: seq<Anchored>)
    requires RunOk(w, st, Exec(x), l, k) && Good(w, k) && At(st).Some?
    ensures MovesMatch(w, ARun(st, Exec(x), l, k), next)
  {
    hide BlocksOk, Good, NoRepeats, Later, MovesMatch, SimpleStep, Entry, Live, OpenInRange, Compiled, EndsWith,
      Untouched, Instrs;
    var b, r := Head(st), SimpleStep(st, x, w.trust);
    ReadyBase(st, []);
    SimpleSteps(st, x, w.trust);
    assert Compile(st, Exec(x), l, w.trust) == r;
    if x.panics {
      EndsLater(r, w.F, b, Instrs(st) + [x.id], [Edge(b, EXIT, Panic)]);
      EndsInstrs(w.F, b, Instrs(st) + [x.id], [Edge(b, EXIT, Panic)]);
      MakeLeave(w, Panic, b, Instrs(st) + [x.id]);
      Emits(w, st, Exec(x), l, k, x.id, ALeave(Panic, Some(b)));
      next := [ALeave(Panic, Some(b))];
    } else if w.trust(x.id) {
      var n := r.current.value;
      EndsLater(r, w.F, b, Instrs(st) + [x.id], [Edge(b, n, Normal), Edge(b, EXIT, TrustedStop)]);
      EndsInstrs(w.F, b, Instrs(st) + [x.id], [Edge(b, n, Normal), Edge(b, EXIT, TrustedStop)]);
      ResumesAt(r, n);
      MakeTrusted(w, b, n, Instrs(st) + [x.id], k);
      Emits(w, st, Exec(x), l, k, x.id, ATrusted(Some(b), n, k));
      next := [ATrusted(Some(b), n, k)];
    } else {
      LaterAt(r, w.F, b);
      Emits(w, st, Exec(x), l, k, x.id, k);
      next := [k];
    }
  }

  lemma EndsInstrs(F: State, b: BlockId, instrs: seq<Instr>, succs: seq<Edge>)
    requires EndsWith(F, b, instrs, succs)
    ensures b < |F.blocks| && F.blocks[b].instrs == instrs && F.blocks[b].succs == succs
  {}

  lemma MakeLeave(w: World, how: EdgeKind, b: BlockId, instrs: seq<Instr>)
    requires EndsWith(w.F, b, instrs, [Edge(b, EXIT, how)]) && b != EXIT
    ensures Good(w, ALeave(how, Some(b))) && Tail(ALeave(how, Some(b))) == []
      && Entry(w, ALeave(how, Some(b))) == Some(Loc(b, |instrs|))
  {}

  lemma MakeTrusted(w: World, b: BlockId, n: BlockId, instrs: seq<Instr>, k: Anchored)
    requires EndsWith(w.F, b, instrs, [Edge(b, n, Normal), Edge(b, EXIT, TrustedStop)]) && b != EXIT
    requires Good(w, k) && Tail(k) == [] && Entry(w, k) == Some(Loc(n, 0))
    ensures Good(w, ATrusted(Some(b), n, k)) && Entry(w, ATrusted(Some(b), n, k)) == Some(Loc(b, |instrs|))
    ensures Tail(ATrusted(Some(b), n, k)) == []
  {
    hide RunOk, SeqOk, LoopEnd, PostEnd, CaseEnd, Tail;
    assert EndOf(w.F, Some(b)) == Some(Loc(b, |instrs|))
      && Leaves(w.F, Some(b), [Edge(b, n, Normal), Edge(b, EXIT, TrustedStop)]);
    NoTailHere(ATrusted(Some(b), n, k));
  }

  lemma NoTailHere(k: Anchored)
    requires !k.AClause?
    ensures Tail(k) == []
  {}

  // Statements that emit one instruction and go on.
  predicate IsPlain(s: Stmt, id: Instr) {
    s == Opaque(id) || (s.GoCall? && s.id == id) || (s.DeferCall? && s.id == id)
  }

  lemma PlainMoves(w: World, st: State, s: Stmt, id: Instr, l: Label, k: Anchored) returns (next: seq<Anchored>)
    requires RunOk(w, st, s, l, k) && Good(w, k) && At(st).Some? && IsPlain(s, id)
    ensures MovesMatch(w, ARun(st, s, l, k), next)
  {
    hide BlocksOk, Good, RunOk, MovesMatch, Entry, Tail, At, Inv;
    PlainCompiled(w, st, s, id, l, k);
    Emits(w, st, s, l, k, id, k);
    next := [k];
  }

  lemma PlainCompiled(w: World, st: State, s: Stmt, id: Instr, l: Label, k: Anchored)
    requires RunOk(w, st, s, l, k) && At(st).Some? && IsPlain(s, id)
    ensures Inv(st) && Head(st) < |w.F.blocks| && Instrs(st) + [id] <= w.F.blocks[Head(st)].instrs
    ensures Tail(k) == [] && Entry(w, k) == Some(Loc(Head(st), |Instrs(st)| + 1))
  {
    hide BlocksOk, Step, NoRepeats, Later, Building.Emit, Record, Ready, Labels, FramesOf, Entry;
    ReadyBase(st, Labels(s));
    var b, r := Head(st), Compile(st, s, l, w.trust);
    if s.Opaque? { EmitCompiled(st, id); } else { RecordedEmit(st, s.call, s.GoCall?, id); }
    LaterAt(r, w.F, b);
  }

  lemma ReturnMoves(w: World, st: State, id: Instr, calls: seq<CallId>, l: Label, k: Anchored)
    returns (next: seq<Anchored>)
    requires RunOk(w, st, ReturnStmt(id, calls), l, k) && Good(w, k) && At(st).Some?
    ensures MovesMatch(w, ARun(st, ReturnStmt(id, calls), l, k), next)
  {
    hide BlocksOk, Good, Step, NoRepeats, Later, MovesMatch, Building.Emit, RecordAll, JumpTo, Ready, Entry, FramesOf,
      Instrs, EndsWith, Live, OpenInRange, Focus;
    ReadyBase(st, []);
    var b, r := Head(st), Compile(st, ReturnStmt(id, calls), l, w.trust);
    ReturnSteps(st, id, calls);
    EndsLater(r, w.F, b, Instrs(st) + [id], [Edge(b, EXIT, Return)]);
    MakeLeave(w, Return, b, Instrs(st) + [id]);
    Emits(w, st, ReturnStmt(id, calls), l, k, id, ALeave(Return, Some(b)));
    next := [ALeave(Return, Some(b))];
  }

  // Where an active piece of code starts, once its block is finished.
  lemma HeadLeaves(w: World, st: State, s: Stmt, l: Label, k: Anchored, succs: seq<Edge>)
    requires Inv(st) && At(st).Some? && EndsWith(w.F, Head(st), Instrs(st), succs)
    ensures Entry(w, ARun(st, s, l, k)) == EndOf(w.F, Some(Head(st))) && Leaves(w.F, Some(Head(st)), succs)
  {
    hide BlocksOk;
  }

  // break, continue and goto, given where they land.
  lemma BranchMoves(w: World, st: State, s: Stmt, l: Label, k: Anchored, target: Option<BlockId>, c: Option<Kont>,
      kind: EdgeKind, k': Anchored) returns (next: seq<Anchored>)
    requires Base(st) && At(st).Some? && (target.Some? ==> Target(|st.blocks|, target.value))
      && Later(Branch(st, target, kind), w.F)
    requires Agree(w, k', c, target)
    requires Moves(w.trust, w.body, Run(s, l, Erase(k))) == Only(Jump(kind), c)
    ensures MovesMatch(w, ARun(st, s, l, k), next)
  {
    hide BlocksOk, Good, Moves, Branch, Later, Entry, Erase;
    var b := st.current.value;
    BranchSteps(st, target, kind);
    var succs := if target.Some? then [Edge(b, target.value, kind)] else [];
    EndsLater(Branch(st, target, kind), w.F, b, st.blocks[b].instrs, succs);
    HeadLeaves(w, st, s, l, k, succs);
    RunErases(st, s, l, k);
    if target.Some? {
      OneWay(w, ARun(st, s, l, k), Some(b), succs[0], k');
      next := [k'];
    } else {
      next := [];
    }
  }

  lemma RunErases(st: State, s: Stmt, l: Label, k: Anchored)
    ensures Erase(ARun(st, s, l, k)) == Run(s, l, Erase(k))
  {}

  lemma IfMoves(w: World, st: State, s: Stmt, l: Label, k: Anchored) returns (next: seq<Anchored>)
    requires s.If? && s.init.None? && RunOk(w, st, s, l, k) && Good(w, k) && At(st).Some?
    ensures MovesMatch(w, ARun(st, s, l, k), next)
  {
    hide BlocksOk, Good, Entry, IfThen, IfElse, Compile, CompileList, NoRepeats, Later, CondEdges, MovesMatch, Ready,
      Exits, At;
    ReadyBase(st, Labels(s));
    NoTail(w, st, s, l, k);
    IfFacts(w, st, s, l, k);
    ThenGood(w, st, s, l, k);
    ElseGood(w, st, s, l, k);
    var c, e := Head(st), ElseStart(st, s, w.trust).current.value;
    HeadLeaves(w, st, s, l, k, CondEdges(s.cond, c, Settled(st), e));
    assert s.thn + [] == s.thn;
    next := CondWays(w, ARun(st, s, l, k), c, s.cond, Settled(st), ThenPart(w, st, s, k), e, ElsePart(w, st, s, k));
  }

  lemma LoopEntryMoves(w: World, st: State, s: Stmt, l: Label, k: Anchored) returns (next: seq<Anchored>)
    requires IsLoop(s) && RunOk(w, st, s, l, k) && Good(w, k) && At(st).Some?
    ensures MovesMatch(w, ARun(st, s, l, k), next)
  {
    hide BlocksOk, Good, Entry, Compile, CompileList, NoRepeats, Later, MovesMatch, Ready, TestEdges, Compiled,
      LoopBody, PostShape;
    ReadyBase(st, Labels(s));
    LoopFacts(w, st, s, l, k);
    MakeLoop(w, st, s, l, k);
    var e := Edge(Head(st), LoopHeader(st), Normal);
    HeadLeaves(w, st, s, l, k, [e]) by { CurrentInstrs(st); }
    NoTailHere(ATest(st, s, l, k));
    OneWay(w, ARun(st, s, l, k), Some(Head(st)), e, ATest(st, s, l, k));
    next := [ATest(st, s, l, k)];
  }

  lemma CurrentInstrs(st: State)
    requires Inv(st) && st.current.Some?
    ensures Head(st) == st.current.value && Instrs(st) == st.blocks[st.current.value].instrs
  {
    hide BlocksOk;
  }

  lemma HeaderLeaves(w: World, st: State, s: Stmt, l: Label)
    requires Inv(st) && IsLoop(s) && LoopShape(st, TestOf(s), PostOf(s), s.loop, l, w.trust, w.F)
    ensures var h, b := LoopHeader(st), LoopFirst(st);
      EndOf(w.F, Some(h)) == Some(Loc(h, 0)) && Leaves(w.F, Some(h), TestEdges(TestOf(s), h, b, b + 1))
  {
    hide BlocksOk, LoopBody, CompileList, Later, TestEdges, Ready, PostShape, Exits;
    EndsInstrs(w.F, LoopHeader(st), [], TestEdges(TestOf(s), LoopHeader(st), LoopFirst(st), LoopFirst(st) + 1));
  }

  lemma TestMoves(w: World, st: State, s: Stmt, l: Label, k: Anchored) returns (next: seq<Anchored>)
    requires IsLoop(s) && RunOk(w, st, s, l, k) && Good(w, k)
    ensures MovesMatch(w, ATest(st, s, l, k), next)
  {
    hide BlocksOk, Good, Entry, Compile, CompileList, NoRepeats, Later, MovesMatch, Ready, Compiled, LoopBody,
      PostShape, CondEdges, Exits, RunOk, EndOf, Leaves, FramesOf, LoopShape, Inv;
    NoTail(w, st, s, l, k);
    LoopFacts(w, st, s, l, k);
    BodyGood(w, st, s, l, k);
    MakeLoop(w, st, s, l, k);
    var h, b := LoopHeader(st), LoopFirst(st);
    HeaderLeaves(w, st, s, l);
    assert s.loop + [] == s.loop;
    var body := BodyPart(st, s, l, k);
    if TestOf(s).None? {
      OneWay(w, ATest(st, s, l, k), Some(h), Edge(h, b, Normal), body);
      next := [body];
    } else {
      next := CondWays(w, ATest(st, s, l, k), h, TestOf(s).value, b, body, b + 1, k);
    }
  }

  lemma RoundMoves(w: World, st: State, s: Stmt, l: Label, k: Anchored) returns (next: seq<Anchored>)
    requires IsLoop(s) && RunOk(w, st, s, l, k) && Good(w, k) && Entry(w, ALoop(st, s, l, k)).Some?
    ensures MovesMatch(w, ALoop(st, s, l, k), next)
  {
    hide BlocksOk, Good, Entry, Compile, CompileList, NoRepeats, Later, MovesMatch, Ready, LoopBody, PostShape,
      CondEdges, NextPart, NextRound, TestEdges, LoopEnd;
    ReadyBase(st, Labels(s));
    LoopFacts(w, st, s, l, k);
    MakeLoop(w, st, s, l, k);
    NextGood(w, st, s, l, k);
    var e := LoopEnd(w, st, s, l);
    var edge := Edge(e.current.value, LoopNext(st, PostOf(s).Some?), RoundKind(PostOf(s)));
    RoundEnd(w, st, s, l);
    NextTail(w, st, s, l, k);
    OneWay(w, ALoop(st, s, l, k), e.current, edge, NextPart(w, st, s, l, k));
    next := [NextPart(w, st, s, l, k)];
  }

  lemma NextTail(w: World, st: State, s: Stmt, l: Label, k: Anchored)
    requires Inv(st) && IsLoop(s)
    ensures Tail(NextPart(w, st, s, l, k)) == []
  {}

  lemma RoundEnd(w: World, st: State, s: Stmt, l: Label)
    requires Inv(st) && IsLoop(s) && LoopShape(st, TestOf(s), PostOf(s), s.loop, l, w.trust, w.F)
    requires Base(LoopEnd(w, st, s, l)) && LoopEnd(w, st, s, l).current.Some?
    ensures var e := LoopEnd(w, st, s, l);
      Leaves(w.F, e.current, [Edge(e.current.value, LoopNext(st, PostOf(s).Some?), RoundKind(PostOf(s)))])
  {
    hide BlocksOk, LoopBody, CompileList, Later, TestEdges, Ready, PostShape;
    EndIsAt(LoopEnd(w, st, s, l), w.F, LoopNext(st, PostOf(s).Some?), RoundKind(PostOf(s)));
  }

  lemma PostLeaves(w: World, st: State, s: Stmt, l: Label)
    requires Inv(st) && IsLoop(s) && PostOf(s).Some? && PostEnd(w, st, s, l).current.Some?
    requires PostShape(st, LoopEnd(w, st, s, l), PostOf(s).value, w.trust, w.F)
    ensures var q := PostEnd(w, st, s, l);
      Leaves(w.F, q.current, [Edge(q.current.value, LoopHeader(st), LoopBack)])
  {
    hide BlocksOk, Compile, CompileList, NoRepeats, Later, Ready, LoopBody, SimpleStep, PostStart;
    var p, q := PostStart(st, LoopEnd(w, st, s, l)), PostEnd(w, st, s, l);
    ReadyBase(p, []);
    SimpleSteps(p, PostOf(s).value, w.trust);
    CompiledBase(p, q, []);
    EndIsAt(q, w.F, LoopHeader(st), LoopBack);
  }

  lemma BackMoves(w: World, st: State, s: Stmt, l: Label, k: Anchored) returns (next: seq<Anchored>)
    requires IsLoop(s) && PostOf(s).Some? && RunOk(w, st, s, l, k) && Good(w, k) && Entry(w, ABack(st, s, l, k)).Some?
    ensures MovesMatch(w, ABack(st, s, l, k), next)
  {
    hide BlocksOk, Good, Entry, Compile, CompileList, NoRepeats, Later, MovesMatch, Ready, LoopBody, CondEdges,
      TestEdges, SimpleStep, PostStart;
    LoopFacts(w, st, s, l, k);
    MakeLoop(w, st, s, l, k);
    var q := PostEnd(w, st, s, l);
    PostLeaves(w, st, s, l);
    NoTailHere(ATest(st, s, l, k));
    OneWay(w, ABack(st, s, l, k), q.current, Edge(q.current.value, LoopHeader(st), LoopBack), ATest(st, s, l, k));
    next := [ATest(st, s, l, k)];
  }

  lemma LabeledMoves(w: World, st: State, m: Label, body: Stmt, l: Label, k: Anchored) returns (next: seq<Anchored>)
    requires RunOk(w, st, Labeled(m, body), l, k) && Good(w, k) && At(st).Some?
    ensures MovesMatch(w, ARun(st, Labeled(m, body), l, k), next)
  {
    hide BlocksOk, Good, Entry, Compile, NoRepeats, Later, MovesMatch, Ready, EnterLabel, RunOk;
    LabelParts(w, st, m, body, l, k);
    var inner := ARun(EnterLabel(st, m), body, m, k);
    var e := Edge(Head(st), w.F.labels[m], Normal);
    CurrentInstrs(st);
    HeadLeaves(w, st, Labeled(m, body), l, k, [e]);
    NoTailHere(inner);
    OneWay(w, ARun(st, Labeled(m, body), l, k), Some(Head(st)), e, inner);
    next := [inner];
  }

  /****** switch and select ******/

  lemma {:induction false} CaseMove(clauses: seq<Clause>, n: nat, l: Label, falls: bool, k: Kont, j: nat)
    requires j < n <= |clauses|
    ensures CaseMoves(clauses, n, l, falls, k)[j] ==
      Move(Jump(EdgeKind.Case), Seq(clauses[j].body, ClauseEnd(l, Rest(clauses, j, falls), k)))
    decreases n
  {
    if j < n - 1 { CaseMove(clauses, n - 1, l, falls, k, j); }
  }

  lemma {:induction false} CaseEdge(c: BlockId, blocks: seq<BlockId>, j: nat)
    requires j < |blocks|
    ensures |CaseEdges(c, blocks)| == |blocks| && CaseEdges(c, blocks)[j] == Edge(c, blocks[j], EdgeKind.Case)
    decreases |blocks|
  {
    var shorter := blocks[..|blocks| - 1];
    if shorter == [] {
      assert CaseEdges(c, shorter) == [];
    } else {
      CaseEdge(c, shorter, if j < |shorter| then j else 0);
    }
  }

  lemma {:induction false} SwitchBlockAt(st: State, n: nat, j: nat)
    requires j < n
    ensures SwitchBlocks(st, n)[j] == SwitchBlock(st, j)
    decreases n
  {
    if j < n - 1 { SwitchBlockAt(st, n - 1, j); }
  }

  lemma {:induction false} SelectBlockAt(st: State, clauses: seq<Clause>, n: nat, l: Label, trust: Instr -> bool,
      j: nat)
    requires Inv(st) && j < n <= |clauses|
    ensures SelectBlocks(st, clauses, n, l, trust)[j] == SelectBlock(st, clauses, j, l, trust)
    decreases n
  {
    hide BlocksOk, SelectBlock, SelectAt;
    if j < n - 1 { SelectBlockAt(st, clauses, n - 1, l, trust, j); }
  }

  ghost function CaseParts(w: World, st: State, s: Stmt, l: Label, k: Anchored, n: nat): (r: seq<Anchored>)
    requires Inv(st) && IsMulti(s) && n <= |s.clauses|
    ensures |r| == n
    decreases n
  {
    if n == 0 then [] else CaseParts(w, st, s, l, k, n - 1) + [CasePart(w, st, s, n - 1, l, k)]
  }

  lemma {:induction false} CasePartAt(w: World, st: State, s: Stmt, l: Label, k: Anchored, n: nat, j: nat)
    requires Inv(st) && IsMulti(s) && j < n <= |s.clauses|
    ensures CaseParts(w, st, s, l, k, n)[j] == CasePart(w, st, s, j, l, k)
    decreases n
  {
    hide BlocksOk, CasePart;
    if j < n - 1 { CasePartAt(w, st, s, l, k, n - 1, j); }
  }

  lemma CaseMatches(w: World, st: State, s: Stmt, l: Label, k: Anchored, j: nat)
    requires IsMulti(s) && RunOk(w, st, s, l, k) && Good(w, k) && j < |s.clauses|
    ensures Inv(st)
    ensures var blocks := MultiBlocks(w, st, s, l);
      |CaseEdges(Head(st), blocks)| == |blocks| &&
      MoveMatches(w, CaseMoves(s.clauses, |s.clauses|, l, s.Switch?, Erase(k))[j],
        EdgeMoves(CaseEdges(Head(st), blocks))[j], CasePart(w, st, s, j, l, k))
  {
    hide BlocksOk, Good, Entry, Compile, NoRepeats, Later, Ready, Erase, CaseEdges, CasePart, SwitchBlocks,
      SelectBlocks;
    ReadyBase(st, Labels(s));
    var n := |s.clauses|;
    CaseGood(w, st, s, j, l, k);
    CaseErases(w, st, s, j, l, k);
    CaseMove(s.clauses, n, l, s.Switch?, Erase(k), j);
    CaseEdge(Head(st), MultiBlocks(w, st, s, l), j);
    if s.Switch? { SwitchBlockAt(st, n, j); } else { SelectBlockAt(st, s.clauses, n, l, w.trust, j); }
    CaseNoTail(w, st, s, j, l, k);
  }

  lemma CaseNoTail(w: World, st: State, s: Stmt, i: nat, l: Label, k: Anchored)
    requires Inv(st) && IsMulti(s) && i < |s.clauses|
    ensures Tail(CasePart(w, st, s, i, l, k)) == []
  {}

  lemma NoCases(w: World, st: State, s: Stmt, l: Label)
    requires Inv(st) && IsMulti(s) && s.clauses == []
    ensures CaseEdges(Head(st), MultiBlocks(w, st, s, l)) == []
  {}

  lemma MultiMoves(w: World, st: State, s: Stmt, l: Label, k: Anchored) returns (next: seq<Anchored>)
    requires IsMulti(s) && RunOk(w, st, s, l, k) && Good(w, k) && At(st).Some?
    ensures MovesMatch(w, ARun(st, s, l, k), next)
  {
    hide BlocksOk, Good, Entry, Compile, NoRepeats, Later, Ready, Erase, CaseEdges, CasePart, MultiBlocks, SwitchShape,
      SelectShape, CaseMoves, HasDefault;
    ReadyBase(st, Labels(s));
    MultiFacts(w, st, s, l, k);
    NoTail(w, st, s, l, k);
    var n, c := |s.clauses|, Head(st);
    var start := if s.Switch? then NoMatch(st, s.clauses) else [];
    var cases := CaseEdges(c, MultiBlocks(w, st, s, l));
    HeadLeaves(w, st, s, l, k, start + cases);
    RunErases(st, s, l, k);
    if n == 0 { NoCases(w, st, s, l); }
    forall j | 0 <= j < n
      ensures |cases| == n
        && MoveMatches(w, CaseMoves(s.clauses, n, l, s.Switch?, Erase(k))[j], EdgeMoves(cases)[j],
          CasePart(w, st, s, j, l, k))
    {
      CaseMatches(w, st, s, l, k, j);
    }
    assert |cases| == n by { if n > 0 { CaseMatches(w, st, s, l, k, 0); } }
    next := (if s.Switch? && !HasDefault(s.clauses) then [k] else []) + CaseParts(w, st, s, l, k, n);
    CasesAnchored(w, st, s, l, k, cases);
    MultiCollect(w, st, s, l, k, start, cases, CaseParts(w, st, s, l, k, n));
  }

  // Later moves, edges and continuations keep matching behind the first ones.
  lemma MatchPast(w: World, ms: seq<Move>, ns: seq<Move>, start: seq<Edge>, cases: seq<Edge>, first: seq<Anchored>,
      parts: seq<Anchored>, j: nat)
    requires |ms| == |start| == |first| && j < |ns| == |cases| == |parts|
    requires MoveMatches(w, ns[j], EdgeMoves(cases)[j], parts[j])
    ensures MoveMatches(w, (ms + ns)[|start| + j], EdgeMoves(start + cases)[|start| + j], (first + parts)[|start| + j])
  {
    hide MoveMatches;
  }

  // The moves into the clauses are the edges into their blocks.
  ghost predicate CasesMatch(w: World, ns: seq<Move>, cases: seq<Edge>, parts: seq<Anchored>) {
    |ns| == |cases| == |parts| && forall j :: 0 <= j < |ns| ==> MoveMatches(w, ns[j], EdgeMoves(cases)[j], parts[j])
  }

  lemma PastFirst(w: World, ms: seq<Move>, ns: seq<Move>, start: seq<Edge>, cases: seq<Edge>, first: seq<Anchored>,
      parts: seq<Anchored>)
    requires |ms| == |start| == |first| <= 1 && CasesMatch(w, ns, cases, parts)
    requires start != [] ==> MoveMatches(w, ms[0], EdgeMoves(start)[0], first[0])
    ensures CasesMatch(w, ms + ns, start + cases, first + parts)
  {
    hide MoveMatches;
    forall j | 0 <= j < |ms + ns|
      ensures MoveMatches(w, (ms + ns)[j], EdgeMoves(start + cases)[j], (first + parts)[j]) {
      if j >= |start| { MatchPast(w, ms, ns, start, cases, first, parts, j - |start|); }
    }
  }

  lemma CasesAnchored(w: World, st: State, s: Stmt, l: Label, k: Anchored, cases: seq<Edge>)
    requires IsMulti(s) && Inv(st) && |cases| == |s.clauses|
    requires forall j :: 0 <= j < |s.clauses| ==>
      MoveMatches(w, CaseMoves(s.clauses, |s.clauses|, l, s.Switch?, Erase(k))[j], EdgeMoves(cases)[j],
        CasePart(w, st, s, j, l, k))
    ensures CasesMatch(w, CaseMoves(s.clauses, |s.clauses|, l, s.Switch?, Erase(k)), cases,
      CaseParts(w, st, s, l, k, |s.clauses|))
  {
    hide BlocksOk, Erase, CaseMoves, CasePart, Inv, CaseParts, MoveMatches;
    var n := |s.clauses|;
    var parts := CaseParts(w, st, s, l, k, n);
    forall j | 0 <= j < n
      ensures MoveMatches(w, CaseMoves(s.clauses, n, l, s.Switch?, Erase(k))[j], EdgeMoves(cases)[j], parts[j])
    {
      CasePartAt(w, st, s, l, k, n, j);
    }
  }

  lemma MultiCollect(w: World, st: State, s: Stmt, l: Label, k: Anchored, start: seq<Edge>, cases: seq<Edge>,
      parts: seq<Anchored>)
    requires IsMulti(s) && Inv(st) && Good(w, k) && Tail(k) == [] && Entry(w, k) == Some(Loc(Settled(st), 0))
    requires Entry(w, ARun(st, s, l, k)).Some? && Entry(w, ARun(st, s, l, k)) == EndOf(w.F, Some(Head(st)))
      && Leaves(w.F, Some(Head(st)), start + cases)
    requires start == (if s.Switch? then NoMatch(st, s.clauses) else [])
    requires CasesMatch(w, CaseMoves(s.clauses, |s.clauses|, l, s.Switch?, Erase(k)), cases, parts)
    ensures MovesMatch(w, ARun(st, s, l, k), (if s.Switch? && !HasDefault(s.clauses) then [k] else []) + parts)
  {
    hide BlocksOk, Good, Entry, HasDefault, CaseMoves, Inv, CasesMatch, MoveMatches, EndOf, Leaves, GraphMoves, Focus,
      FindIn, BreakTo, ContinueTo, FallTo;
    MovesOut(w.F, Some(Head(st)), start + cases);
    var ns := CaseMoves(s.clauses, |s.clauses|, l, s.Switch?, Erase(k));
    var first := if s.Switch? && !HasDefault(s.clauses) then [k] else [];
    var m0 := if first != [] then [Move(Jump(Normal), Erase(k))] else [];
    RunErases(st, s, l, k);
    assert Moves(w.trust, w.body, Run(s, l, Erase(k))) == m0 + ns;
    if start != [] { NoMatchMatches(w, st, s, k); }
    PastFirst(w, m0, ns, start, cases, first, parts);
    AllMatch(w, ARun(st, s, l, k), m0 + ns, start + cases, first + parts);
  }

  lemma AllMatch(w: World, k: Anchored, ms: seq<Move>, es: seq<Edge>, next: seq<Anchored>)
    requires CasesMatch(w, ms, es, next) && Entry(w, k).Some? && Moves(w.trust, w.body, Erase(k)) == ms
    requires GraphMoves(GraphOf(w.F), Entry(w, k).value) == EdgeMoves(es)
    ensures MovesMatch(w, k, next)
  {
    hide Moves, GraphMoves, Erase, Entry, MoveMatches;
  }

  lemma NoMatchMatches(w: World, st: State, s: Stmt, k: Anchored)
    requires s.Switch? && Good(w, k) && Tail(k) == [] && Entry(w, k) == Some(Loc(Settled(st), 0))
    ensures MoveMatches(w, Move(Jump(Normal), Erase(k)), GraphMove(Jump(Normal), Loc(Settled(st), 0)), k)
  {
    hide Good, Entry;
  }

  // The end of a clause that does not fall through.
  lemma ClauseMoves(w: World, st: State, s: Stmt, i: nat, l: Label, k: Anchored) returns (next: seq<Anchored>)
    requires Good(w, AClause(st, s, i, l, k)) && Tail(AClause(st, s, i, l, k)) == []
      && Entry(w, AClause(st, s, i, l, k)).Some?
    ensures MovesMatch(w, AClause(st, s, i, l, k), next)
  {
    hide BlocksOk, Good, Entry, Compile, CompileList, NoRepeats, Later, MovesMatch, Ready, CaseStart, CaseList, RunOk,
      CaseShape, Inv;
    ClauseInner(w, st, s, i, l, k);
    NoTail(w, st, s, l, k);
    MultiExit(w, st, s, l, k);
    CaseFacts(w, st, s, i, l, k);
    MakeClause(w, st, s, i, l, k);
    var r := CaseEnd(w, st, s, i, l);
    ClauseEndLeaves(w, st, s, i, l, k, Settled(st), Normal);
    OneWay(w, AClause(st, s, i, l, k), r.current, Edge(r.current.value, Settled(st), Normal), k);
    next := [k];
  }

  lemma ClauseInner(w: World, st: State, s: Stmt, i: nat, l: Label, k: Anchored)
    requires Good(w, AClause(st, s, i, l, k))
    ensures IsMulti(s) && i < |s.clauses| && RunOk(w, st, s, l, k) && Good(w, k)
  {
    hide RunOk;
  }

  lemma ClauseEndLeaves(w: World, st: State, s: Stmt, i: nat, l: Label, k: Anchored, to: BlockId, kind: EdgeKind)
    requires IsMulti(s) && i < |s.clauses| && RunOk(w, st, s, l, k) && Inv(st) && CaseShape(w, st, s, i, l)
      && FallsPlacedIn(CaseList(s, i))
    requires to == (if LeavesByFall(s, i) then SwitchBlock(st, i + 1) else Settled(st)) && kind == if LeavesByFall(s, i)
      then EdgeKind.Fallthrough else Normal
    requires EndOf(w.F, CaseEnd(w, st, s, i, l).current).Some?
    ensures var r := CaseEnd(w, st, s, i, l);
      r.current.Some? && Leaves(w.F, r.current, [Edge(r.current.value, to, kind)])
  {
    hide BlocksOk, Good, Entry, Compile, CompileList, NoRepeats, Later, Ready, CaseStart, CaseList, RunOk;
    var e, r := CaseStart(w, st, s, i, l), CaseEnd(w, st, s, i, l);
    ListSteps(e, CaseList(s, i), w.trust);
    CompiledBase(e, r, LabelsOfList(CaseList(s, i)));
    EndIsAt(r, w.F, to, kind);
  }

  // fallthrough: the next clause is entered.
  lemma FallMoves(w: World, id: Instr, k: Anchored) returns (next: seq<Anchored>)
    requires Good(w, AFall(id, k)) && Entry(w, AFall(id, k)).Some?
    ensures MovesMatch(w, AFall(id, k), next)
  {
    hide BlocksOk, Good, Entry, Compile, CompileList, NoRepeats, Later, MovesMatch, Ready, CaseStart, CaseList,
      CasePart, RunOk;
    FallInner(w, id, k);
    var st, s, i, l, k0 := k.st, k.sw, k.i, k.name, k.k;
    ClauseInner(w, st, s, i, l, k0);
    FallPlaced(w, st, s, i, l, k0);
    CaseFacts(w, st, s, i, l, k0);
    MakeClause(w, st, s, i, l, k0);
    var r := CaseEnd(w, st, s, i, l);
    ClauseEndLeaves(w, st, s, i, l, k0, SwitchBlock(st, i + 1), EdgeKind.Fallthrough);
    CaseGood(w, st, s, i + 1, l, k0);
    CaseNoTail(w, st, s, i + 1, l, k0);
    FallErases(w, id, st, s, i, l, k0);
    var e := Edge(r.current.value, SwitchBlock(st, i + 1), EdgeKind.Fallthrough);
    OneWay(w, AFall(id, k), r.current, e, CasePart(w, st, s, i + 1, l, k0));
    next := [CasePart(w, st, s, i + 1, l, k0)];
  }

  lemma FallInner(w: World, id: Instr, k: Anchored)
    requires Good(w, AFall(id, k))
    ensures k.AClause? && Tail(k) != [] && Good(w, k) && Entry(w, AFall(id, k)) == Entry(w, k)
  {
    hide RunOk, CaseEnd, LoopEnd, PostEnd;
  }

  lemma FallPlaced(w: World, st: State, s: Stmt, i: nat, l: Label, k: Anchored)
    requires IsMulti(s) && i < |s.clauses| && RunOk(w, st, s, l, k) && CaseTail(s, i) != []
    ensures s.Switch? && i + 1 < |s.clauses| && LeavesByFall(s, i)
    ensures Inv(st)
  {
    hide BlocksOk, Ready, Later, Compile, Entry, FramesOf;
    ReadyBase(st, Labels(s));
    CaseFalls(s, i);
    CaseIsList(st, s.clauses[i].body, w.trust, i + 1 < |s.clauses|);
  }

  lemma FallErases(w: World, id: Instr, st: State, s: Stmt, i: nat, l: Label, k: Anchored)
    requires IsMulti(s) && s.Switch? && i + 1 < |s.clauses| && Inv(st)
    ensures Moves(w.trust, w.body, Erase(AFall(id, AClause(st, s, i, l, k)))) ==
      [Move(Jump(EdgeKind.Fallthrough), Erase(CasePart(w, st, s, i + 1, l, k)))]
  {
    hide BlocksOk, Inv, CasePart, Focus, FindIn, BreakTo, ContinueTo, CaseMoves;
    CaseErases(w, st, s, i + 1, l, k);
    var rest := s.clauses[i + 1..];
    assert rest[0] == s.clauses[i + 1] && rest[1..] == s.clauses[i + 2..];
    var end := ClauseEnd(l, rest, Erase(k));
    assert Erase(AClause(st, s, i, l, k)) == end;
    assert FallTo(Seq([], end)) == FallTo(end) == Some(Seq(rest[0].body, ClauseEnd(l, rest[1..], Erase(k))));
  }

  /****** All moves ******/

  lemma JoinMoves(w: World, from: Option<BlockId>, to: BlockId, k: Anchored) returns (next: seq<Anchored>)
    requires Good(w, AJoin(from, to, k)) && EndOf(w.F, from).Some?
    ensures MovesMatch(w, AJoin(from, to, k), next)
  {
    hide RunOk, SeqOk, LoopEnd, PostEnd, CaseEnd, MovesMatch;
    OneWay(w, AJoin(from, to, k), from, Edge(from.value, to, Normal), k);
    next := [k];
  }

  lemma TrustedMoves(w: World, from: Option<BlockId>, to: BlockId, k: Anchored) returns (next: seq<Anchored>)
    requires Good(w, ATrusted(from, to, k)) && EndOf(w.F, from).Some?
    ensures MovesMatch(w, ATrusted(from, to, k), next)
  {
    hide RunOk, SeqOk, LoopEnd, PostEnd, CaseEnd, MovesMatch;
    TwoWays(w, ATrusted(from, to, k), from, Edge(from.value, to, Normal), k, Edge(from.value, EXIT, TrustedStop),
      ADone);
    next := [k, ADone];
  }

  lemma LeaveMoves(w: World, how: EdgeKind, from: Option<BlockId>) returns (next: seq<Anchored>)
    requires Good(w, ALeave(how, from)) && EndOf(w.F, from).Some?
    ensures MovesMatch(w, ALeave(how, from), next)
  {
    OneWay(w, ALeave(how, from), from, Edge(from.value, EXIT, how), ADone);
    next := [ADone];
  }

  lemma DoneMoves(w: World)
    requires BlocksOk(w.F.blocks) && w.F.blocks[EXIT].instrs == []
    ensures MovesMatch(w, ADone, [])
  {}

  lemma TransferMoves(w: World, st: State, s: Stmt, l: Label, k: Anchored) returns (next: seq<Anchored>)
    requires Finished(w) && RunOk(w, st, s, l, k) && Good(w, k) && At(st).Some?
    requires s.BreakStmt? || s.ContinueStmt? || s.GotoStmt?
    ensures MovesMatch(w, ARun(st, s, l, k), next)
  {
    hide BlocksOk, Good, Entry, Later, MovesMatch, Branch, FramesOf, Erase, Ready, ResolveBreak, ResolveContinue,
      BreakTo, ContinueTo;
    ReadyBase(st, Labels(s));
    var m := s.target;
    if s.BreakStmt? {
      var k' := BreakAgrees(w, k, m);
      next := BranchMoves(w, st, s, l, k, ResolveBreak(st.frames, m), BreakTo(Erase(k), m), EdgeKind.Break, k');
    } else if s.ContinueStmt? {
      var k' := ContinueAgrees(w, k, m);
      next := BranchMoves(w, st, s, l, k, ResolveContinue(st.frames, m), ContinueTo(Erase(k), m), EdgeKind.Continue,
        k');
    } else {
      var k' := GotoAgrees(w, m);
      var target := if m in st.labels then Some(st.labels[m]) else None;
      next := BranchMoves(w, st, s, l, k, target, FindIn(w.body, Leave(Normal), m), EdgeKind.Goto, k');
    }
  }

  lemma GotoAgrees(w: World, m: Label) returns (k': Anchored)
    requires Finished(w)
    ensures Agree(w, k', FindIn(w.body, Leave(Normal), m), if m in w.F.labels then Some(w.F.labels[m]) else None)
  {
    hide Good, SeqOk, Entry, BlocksOk, FindIn;
    var root :| Good(w, root) && Root(w, root);
    GoodSeq(w, root.st, w.body, root.k);
    assert w.body + [] == w.body && Tail(root.k) == [] && Erase(root.k) == Leave(Normal);
    k' := FindInAgrees(w, root.st, w.body, root.k, m);
  }

  // The heart of the compiler's correctness: at every point the machine and the graph offer
  // the same choices, and each choice leads to matching points again.
  lemma AllMoves(w: World, k: Anchored) returns (next: seq<Anchored>)
    requires Finished(w) && Good(w, k) && AtMove(k) && Tail(k) == [] && Entry(w, k).Some?
    ensures MovesMatch(w, k, next)
  {
    hide BlocksOk, Finished, Good, Entry, MovesMatch, RunOk, Moves, Erase, Tail;
    EntryOf(w, k);
    match k {
      case ADone => DoneMoves(w) by { FinishedExit(w); } next := [];
      case ALeave(how, from) => next := LeaveMoves(w, how, from);
      case AFall(id, k') => next := FallMoves(w, id, k');
      case AJoin(from, to, k') => next := JoinMoves(w, from, to, k');
      case ATrusted(from, to, k') => next := TrustedMoves(w, from, to, k');
      case ALoop(st, s, l, k') => LoopInner(w, k); next := RoundMoves(w, st, s, l, k');
      case ABack(st, s, l, k') => LoopInner(w, k); next := BackMoves(w, st, s, l, k');
      case ATest(st, s, l, k') => LoopInner(w, k); next := TestMoves(w, st, s, l, k');
      case AClause(st, s, i, l, k') => next := ClauseMoves(w, st, s, i, l, k');
      case ARun(st, s, l, k') => GoodRun(w, st, s, l, k'); next := StmtMovesMatch(w, st, s, l, k');
    }
  }

  lemma EntryOf(w: World, k: Anchored)
    ensures k.ALeave? ==> Entry(w, k) == EndOf(w.F, k.from)
    ensures k.AJoin? || k.ATrusted? ==> Entry(w, k) == EndOf(w.F, k.from)
    ensures k.ARun? ==> Entry(w, k) == At(k.st)
  {}

  lemma FinishedExit(w: World)
    requires Finished(w)
    ensures BlocksOk(w.F.blocks) && w.F.blocks[EXIT].instrs == []
  {}

  lemma LoopInner(w: World, k: Anchored)
    requires Good(w, k) && (k.ALoop? || k.ABack? || k.ATest?)
    ensures IsLoop(k.loop) && RunOk(w, k.st, k.loop, k.name, k.k) && Good(w, k.k) && (k.ABack? ==> PostOf(k.loop).Some?)
  {
    hide RunOk;
  }

  lemma StmtMovesMatch(w: World, st: State, s: Stmt, l: Label, k: Anchored) returns (next: seq<Anchored>)
    requires Finished(w) && RunOk(w, st, s, l, k) && Good(w, k) && AtMove(ARun(st, s, l, k)) && At(st).Some?
    ensures MovesMatch(w, ARun(st, s, l, k), next)
  {
    hide BlocksOk, Finished, Good, Entry, MovesMatch, RunOk, Moves, Erase, Tail, At;
    match s {
      case Exec(x) => next := SimpleMoves(w, st, x, l, k);
      case Opaque(id) => next := PlainMoves(w, st, s, id, l, k);
      case GoCall(id, _) => next := PlainMoves(w, st, s, id, l, k);
      case DeferCall(id, _) => next := PlainMoves(w, st, s, id, l, k);
      case ReturnStmt(id, calls) => next := ReturnMoves(w, st, id, calls, l, k);
      case Labeled(m, body) => next := LabeledMoves(w, st, m, body, l, k);
      case If(_, _, _, _) => next := IfMoves(w, st, s, l, k);
      case For(_, _, _, _) => next := LoopEntryMoves(w, st, s, l, k);
      case Range(_) => next := LoopEntryMoves(w, st, s, l, k);
      case Switch(_, _) => next := MultiMoves(w, st, s, l, k);
      case Select(_) => next := MultiMoves(w, st, s, l, k);
      case FallthroughStmt(_) => NotPlaced(w, st, s, l, k); next := [];
      case _ => next := TransferMoves(w, st, s, l, k);
    }
  }

  lemma NotPlaced(w: World, st: State, s: Stmt, l: Label, k: Anchored)
    requires RunOk(w, st, s, l, k)
    ensures !s.FallthroughStmt?
  {}
}
