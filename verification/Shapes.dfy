/**
 The blocks and edges each statement form leaves in the final graph F.
 */
module Shapes {
  import opened Wrappers
  import opened Graph
  import opened Syntax
  import opened Building
  import opened Closing

  // Control that runs off the end of s leaves by this one edge of F.
  ghost predicate Exits(s: State, F: State, to: BlockId, kind: EdgeKind) {
    s.current.Some? ==>
      s.current.value < |s.blocks|
        && EndsWith(F, s.current.value, s.blocks[s.current.value].instrs, [Edge(s.current.value, to, kind)])
  }

  lemma ExitsLater(s: State, r: State, F: State, to: BlockId, kind: EdgeKind)
    requires Exits(s, r, to, kind) && Later(r, F)
    ensures Exits(s, F, to, kind)
  {
    hide Later;
    if s.current.Some? {
      EndsLater(r, F, s.current.value, s.blocks[s.current.value].instrs, [Edge(s.current.value, to, kind)]);
    }
  }

  // Compilation goes on in the untouched block `after`.
  ghost predicate Resumes(r: State, after: BlockId) {
    r.current == Some(after) && Untouched(r, after)
  }

  /****** if ******/

  ghost function ThenEnd(st: State, s: Stmt, trust: Instr -> bool): State
    requires Inv(st) && s.If?
  {
    CompileList(IfThen(st, s.cond), s.thn, trust)
  }

  ghost function ElseStart(st: State, s: Stmt, trust: Instr -> bool): State
    requires Inv(st) && s.If?
  {
    IfElse(st, s.cond, ThenEnd(st, s, trust), s.els.Some?)
  }

  ghost function ElseEnd(st: State, s: Stmt, trust: Instr -> bool): State
    requires Inv(st) && s.If? && s.els.Some?
  {
    Compile(ElseStart(st, s, trust), s.els.value, NO_LABEL, trust)
  }

  ghost predicate IfShape(st: State, s: Stmt, trust: Instr -> bool, F: State)
    requires Inv(st) && s.If?
  {
    var c, t, after := Head(st), Settled(st), Settled(st) + 1;
    var u := ElseStart(st, s, trust);
    && Ready(IfThen(st, s.cond), LabelsOfList(s.thn)) && IfThen(st, s.cond).current == Some(t)
    && Untouched(IfThen(st, s.cond), t) && IfThen(st, s.cond).frames == st.frames
      && IfThen(st, s.cond).labels == st.labels
    && Later(ThenEnd(st, s, trust), F) && Exits(ThenEnd(st, s, trust), F, after, Normal)
    && u.current.Some? && Untouched(u, u.current.value) && u.frames == st.frames && u.labels == st.labels
    && EndsWith(F, c, Instrs(st), CondEdges(s.cond, c, t, u.current.value))
    && (if s.els.Some? then
          Ready(u, Labels(s.els.value)) && Later(ElseEnd(st, s, trust), F)
            && Exits(ElseEnd(st, s, trust), F, after, Normal)
        else u.current.value == after)
  }

  lemma IfShapeLater(st: State, s: Stmt, trust: Instr -> bool, r: State, F: State)
    requires Inv(st) && s.If? && IfShape(st, s, trust, r) && Later(r, F)
    ensures IfShape(st, s, trust, F)
  {
    hide Later, Inv, Ready, EndsWith, CondEdges, IfElse, IfThen, Compile, CompileList, Exits, Untouched;
    var after, u := Settled(st) + 1, ElseStart(st, s, trust);
    LaterTrans(ThenEnd(st, s, trust), r, F);
    ExitsLater(ThenEnd(st, s, trust), r, F, after, Normal);
    EndsLater(r, F, Head(st), Instrs(st), CondEdges(s.cond, Head(st), Settled(st), u.current.value));
    if s.els.Some? {
      LaterTrans(ElseEnd(st, s, trust), r, F);
      ExitsLater(ElseEnd(st, s, trust), r, F, after, Normal);
    }
  }

  lemma IfSteps(st: State, s: Stmt, trust: Instr -> bool)
    requires s.If? && Ready(st, Labels(s))
    requires Ready(IfThen(st, s.cond), LabelsOfList(s.thn)) ==>
      Compiled(IfThen(st, s.cond), ThenEnd(st, s, trust), LabelsOfList(s.thn))
    requires s.els.Some? && Ready(ElseStart(st, s, trust), Labels(s.els.value)) ==>
      Compiled(ElseStart(st, s, trust), ElseEnd(st, s, trust), Labels(s.els.value))
    ensures Compiled(st, CompileIf(st, s, trust), Labels(s)) && IfShape(st, s, trust, CompileIf(st, s, trust))
    ensures Resumes(CompileIf(st, s, trust), Settled(st) + 1)
  {
    hide BlocksOk, IfElse, IfThen, Compile, CompileList, NoRepeats, JumpTo, Instrs, Step;
    var ls := LabelsOfList(s.thn);
    var ms := if s.els.Some? then Labels(s.els.value) else [];
    assert Labels(s) == ls + ms;
    ReadyFirst(st, ls, ms);
    IfThenSteps(st, s.cond, ls);
    var t, s2, u := IfThen(st, s.cond), ThenEnd(st, s, trust), ElseStart(st, s, trust);
    StepBase(st, t, Cur(st));
    IfElseSteps(st, s.cond, s2, s.els.Some?, ls, ms);
    StepBase(st, u, Own(st, ls));
    if s.els.Some? {
      var v := ElseEnd(st, s, trust);
      IfDoneSteps(st, u, v, ls, ms);
      var r := CompileIf(st, s, trust);
      LaterTrans(s2, u, r);
      ExitsLater(s2, u, r, Settled(st) + 1, Normal);
      EndsLater(u, r, Head(st), Instrs(st), CondEdges(s.cond, Head(st), Settled(st), u.current.value));
    } else {
      assert ls + ms == ls;
    }
  }

  lemma IfDoneSteps(st: State, u: State, v: State, ls: seq<Label>, ms: seq<Label>)
    requires Ready(st, ls + ms) && Step(st, u, Own(st, ls)) && Ready(u, ms) && Compiled(u, v, ms)
    requires Settled(st) + 1 < |u.blocks| && Untouched(u, Settled(st) + 1) && Settled(st) + 1 !in Own(u, ms)
    ensures Settled(st) + 1 < |v.blocks|
    ensures var r := IfDone(st, v);
      Compiled(st, r, ls + ms) && Later(u, r) && Later(v, r) && Exits(v, r, Settled(st) + 1, Normal)
        && Resumes(r, Settled(st) + 1)
  {
    hide BlocksOk, NoRepeats, JumpTo, Step, Same;
    var after := Settled(st) + 1;
    Bystander(u, v, ms, after);
    JumpSteps(v, after, Normal);
    var w := JumpTo(v, after, Normal);
    var r := IfDone(st, v);
    StepKeeps(v, w, Cur(v), after);
    SetCurrent(v, w, Cur(v) + {after}, after) by { StepMore(v, w, Cur(v), Cur(v) + {after}); }
    StepBase(v, r, Cur(v) + {after});
    LaterTrans(u, v, r);
    var X := Own(st, ls + ms);
    StepMore(st, u, Own(st, ls), X);
    StepBase(st, u, X);
    StepTrans(st, u, v, X, Own(u, ms)) by { StepCurrent(st, u, X); }
    StepTrans(st, v, r, X, Cur(v) + {after}) by { StepCurrent(st, v, X); }
  }

  /****** Loops ******/

  ghost function TestEdges(test: Option<Cond>, h: BlockId, b: BlockId, after: BlockId): seq<Edge> {
    if test.None? then [Edge(h, b, Normal)] else CondEdges(test.value, h, b, after)
  }

  ghost function BodyEnd(st: State, test: Option<Cond>, post: Option<Simple>, loop: seq<Stmt>, l: Label,
      trust: Instr -> bool): State
    requires Inv(st)
  {
    CompileList(LoopBody(st, test, post.Some?, l), loop, trust)
  }

  // The state in which the post statement is compiled, s being the state after the body.
  ghost function PostStart(st: State, s: State): (r: State)
    requires Inv(st) && Inv(s) && LoopSize(st, true) <= |s.blocks|
    ensures Inv(r)
  {
    JumpTo(s, LoopNext(st, true), Normal).(current := Some(LoopNext(st, true)))
  }

  ghost function RoundKind(post: Option<Simple>): EdgeKind {
    if post.Some? then Normal else LoopBack
  }

  ghost predicate PostShape(st: State, s: State, post: Simple, trust: Instr -> bool, F: State)
    requires Inv(st)
  {
    Inv(s) && LoopSize(st, true) <= |s.blocks| &&
    var p := PostStart(st, s);
    && Ready(p, []) && Untouched(p, LoopNext(st, true)) && p.labels == st.labels
    && Later(SimpleStep(p, post, trust), F) && Exits(SimpleStep(p, post, trust), F, LoopHeader(st), LoopBack)
  }

  ghost predicate LoopShape(st: State, test: Option<Cond>, post: Option<Simple>, loop: seq<Stmt>, l: Label,
      trust: Instr -> bool, F: State)
    requires Inv(st)
  {
    var h, b, after := LoopHeader(st), LoopFirst(st), LoopFirst(st) + 1;
    var t := LoopBody(st, test, post.Some?, l);
    var s := BodyEnd(st, test, post, loop, l, trust);
    && Exits(st, F, h, Normal)
    && EndsWith(F, h, [], TestEdges(test, h, b, after))
    && Ready(t, LabelsOfList(loop)) && t.current == Some(b) && Untouched(t, b) && t.labels == st.labels
    && Later(s, F) && Exits(s, F, LoopNext(st, post.Some?), RoundKind(post))
    && (post.Some? ==> PostShape(st, s, post.value, trust, F))
  }

  lemma LoopShapeLater(st: State, test: Option<Cond>, post: Option<Simple>, loop: seq<Stmt>, l: Label,
      trust: Instr -> bool, r: State, F: State)
    requires Inv(st) && LoopShape(st, test, post, loop, l, trust, r) && Later(r, F)
    ensures LoopShape(st, test, post, loop, l, trust, F)
  {
    hide Later, Ready, EndsWith, CondEdges, CompileList, Exits, Untouched, BlocksOk, SimpleStep, PostStart, LoopBody;
    var h, after := LoopHeader(st), LoopFirst(st) + 1;
    var s := BodyEnd(st, test, post, loop, l, trust);
    ExitsLater(st, r, F, h, Normal);
    EndsLater(r, F, h, [], TestEdges(test, h, LoopFirst(st), after));
    LaterTrans(s, r, F);
    ExitsLater(s, r, F, LoopNext(st, post.Some?), RoundKind(post));
    if post.Some? {
      var q := SimpleStep(PostStart(st, s), post.value, trust);
      LaterTrans(q, r, F);
      ExitsLater(q, r, F, h, LoopBack);
    }
  }

  lemma LoopBodySteps(st: State, test: Option<Cond>, hasPost: bool, l: Label, ls: seq<Label>)
    requires Ready(st, ls)
    ensures var s, h, b, after := LoopBody(st, test, hasPost, l), LoopHeader(st), LoopFirst(st), LoopFirst(st) + 1;
      && Ready(s, ls) && Step(st, s, Cur(st)) && Exits(st, s, h, Normal)
      && EndsWith(s, h, [], TestEdges(test, h, b, after))
      && s.current == Some(b) && Untouched(s, b) && Untouched(s, after) && (hasPost ==> Untouched(s, after + 1))
  {
    hide BlocksOk, LoopBody;
    LoopBodyFrame(st, test, hasPost, l);
    AboveLabels(st, ls);
    assert forall m :: m in ls ==> st.labels[m] !in Cur(st);
    assert [] + ls == ls;
    ReadyAfter(st, LoopBody(st, test, hasPost, l), Cur(st), [], ls);
  }

  lemma LoopBlocksFrame(st: State, hasPost: bool)
    requires Base(st)
    ensures var s, h, b, after := LoopBlocks(st, hasPost), LoopHeader(st), LoopFirst(st), LoopFirst(st) + 1;
      && Step(st, s, Cur(st)) && Base(s) && Exits(st, s, h, Normal)
      && Untouched(s, h) && Untouched(s, b) && Untouched(s, after) && (hasPost ==> Untouched(s, after + 1))
  {
    hide BlocksOk, NewBlocks, Step;
    var n := NewBlock(st);
    var h := LoopHeader(st);
    if st.current.None? {
      NewBlockSteps(st);
      EnsureSteps(n) by { StepBase(st, n, {}); }
      var e := Ensure(n);
      StepTrans(st, n, e, Cur(st), Cur(n)) by { StepMore(st, n, {}, Cur(st)); }
      StepKeeps(n, e, Cur(n), h);
      StepBase(n, e, Cur(n));
      FromEnsured(st, e, hasPost);
    } else {
      var c := st.current.value;
      NewBlockSteps(st);
      LiveNewBlock(st);
      FromEnsured(st, n, hasPost);
    }
  }

  lemma LiveNewBlock(st: State)
    requires Base(st) && st.current.Some?
    ensures Step(st, NewBlock(st), Cur(st)) && Base(NewBlock(st)) && Untouched(NewBlock(st), |st.blocks|)
  {
    hide BlocksOk;
  }

  // e has the header allocated and a current block that is st's own, or a new one.
  lemma FromEnsured(st: State, e: State, hasPost: bool)
    requires Base(st) && Base(e) && e == Ensure(NewBlock(st)) && Step(st, e, Cur(st)) && Untouched(e, LoopHeader(st))
    requires |e.blocks| == LoopFirst(st)
    ensures var s, h, b, after := LoopBlocks(st, hasPost), LoopHeader(st), LoopFirst(st), LoopFirst(st) + 1;
      && Step(st, s, Cur(st)) && Base(s) && Exits(st, s, h, Normal)
      && Untouched(s, h) && Untouched(s, b) && Untouched(s, after) && (hasPost ==> Untouched(s, after + 1))
  {
    hide BlocksOk, NewBlocks, Step, JumpTo;
    var h, k := LoopHeader(st), if hasPost then 3 else 2;
    var j := JumpTo(e, h, Normal);
    JumpSteps(e, h, Normal);
    StepBase(e, j, Cur(e));
    StepKeeps(e, j, Cur(e), h);
    StepTrans(st, e, j, Cur(st), Cur(e)) by { StepCurrent(st, e, Cur(st)); }
    NewBlocksSteps(j, k);
    var s := NewBlocks(j, k);
    assert s == LoopBlocks(st, hasPost) && s.(current := None) == s;
    StepBase(j, s, {});
    StepKeeps(j, s, {}, h);
    StepTrans(st, j, s, Cur(st), {});
    if st.current.Some? {
      EndsLater(j, s, e.current.value, e.blocks[e.current.value].instrs, [Edge(e.current.value, h, Normal)]);
    }
  }

  lemma LoopBodyFrame(st: State, test: Option<Cond>, hasPost: bool, l: Label)
    requires Base(st)
    ensures var s, h, b, after := LoopBody(st, test, hasPost, l), LoopHeader(st), LoopFirst(st), LoopFirst(st) + 1;
      && Step(st, s, Cur(st)) && Base(s) && Exits(st, s, h, Normal)
      && EndsWith(s, h, [], TestEdges(test, h, b, after))
      && s.current == Some(b) && Untouched(s, b) && Untouched(s, after) && (hasPost ==> Untouched(s, after + 1))
  {
    hide BlocksOk, Step, LoopBlocks, LoopBody, EndsWith, TestEdges, Exits, Later, Untouched;
    var s0, s := LoopBlocks(st, hasPost), LoopBody(st, test, hasPost, l);
    LoopBlocksFrame(st, hasPost);
    StepBase(st, s0, Cur(st));
    LoopEdgesFrame(st, test, hasPost, l);
    StepBase(s0, s, {LoopHeader(st), LoopFirst(st)});
    StepTrans(st, s0, s, Cur(st), {LoopHeader(st), LoopFirst(st)});
    ExitsLater(st, s0, s, LoopHeader(st), Normal);
    StepKeeps(s0, s, {LoopHeader(st), LoopFirst(st)}, LoopFirst(st) + 1);
    if hasPost { StepKeeps(s0, s, {LoopHeader(st), LoopFirst(st)}, LoopFirst(st) + 2); }
  }

  lemma LoopEdgesFrame(st: State, test: Option<Cond>, hasPost: bool, l: Label)
    requires Base(st) && Base(LoopBlocks(st, hasPost))
    requires Untouched(LoopBlocks(st, hasPost), LoopHeader(st)) && Untouched(LoopBlocks(st, hasPost), LoopFirst(st))
    ensures var s, h, b := LoopBody(st, test, hasPost, l), LoopHeader(st), LoopFirst(st);
      && Step(LoopBlocks(st, hasPost), s, {h, b}) && Base(s)
      && EndsWith(s, h, [], TestEdges(test, h, b, b + 1)) && s.current == Some(b) && Untouched(s, b)
  {
    hide BlocksOk, LoopBlocks, LoopEdges, Step;
    var h, b := LoopHeader(st), LoopFirst(st);
    var s0, e, s := LoopBlocks(st, hasPost), LoopEdges(st, test, hasPost), LoopBody(st, test, hasPost, l);
    LoopEdgesSteps(st, test, hasPost);
    StepBase(s0, e, {h});
    StepKeeps(s0, e, {h}, b);
    StepMore(s0, e, {h}, {h, b});
    CloseSteps(e, h, b);
    assert s == Close(e.(current := Some(b)), h).(frames := s.frames);
    StepFrames(e, Close(e.(current := Some(b)), h), {h, b}, s.frames);
    StepTrans(s0, e, s, {h, b}, {h, b});
  }

  lemma CloseSteps(e: State, h: BlockId, b: BlockId)
    requires Base(e) && h < |e.blocks| && h in e.open && b < |e.blocks|
    ensures Step(e, Close(e.(current := Some(b)), h), {h, b})
  {
    hide BlocksOk;
  }

  lemma StepFrames(e: State, s: State, X: set<BlockId>, frames: seq<Frame>)
    requires Step(e, s, X)
    ensures Step(e, s.(frames := frames), X)
  {
    forall b | 0 <= b < |e.blocks| ensures Onward(e, s.(frames := frames), b) { assert Onward(e, s, b); }
  }

  lemma LoopEdgesSteps(st: State, test: Option<Cond>, hasPost: bool)
    requires Base(st) && Base(LoopBlocks(st, hasPost)) && Untouched(LoopBlocks(st, hasPost), LoopHeader(st))
    ensures var s, h, b := LoopEdges(st, test, hasPost), LoopHeader(st), LoopFirst(st);
      && Step(LoopBlocks(st, hasPost), s, {h}) && Base(s) && s.current == None
      && h < |s.blocks| && h in s.open && s.blocks[h].instrs == [] && s.blocks[h].succs == TestEdges(test, h, b, b + 1)
  {
    hide BlocksOk, LoopBlocks, Step, AddEdge;
    var h, b := LoopHeader(st), LoopFirst(st);
    var s := LoopBlocks(st, hasPost);
    if test.None? {
      AddEdgeSteps(s, h, b, Normal);
      StepBase(s, AddEdge(s, h, b, Normal), {h});
    } else {
      TestSteps(s, test.value, h, b);
    }
  }

  // The edges of a condition, out of the untouched block h.
  lemma TestSteps(s: State, cond: Cond, h: BlockId, b: BlockId)
    requires Base(s) && s.current == None && Untouched(s, h) && h != EXIT && EXIT < b && b + 1 < |s.blocks|
    ensures var s0 := if Allows(cond, true) then AddEdge(s, h, b, IfTrue) else s;
      var r := if Allows(cond, false) then AddEdge(s0, h, b + 1, IfFalse) else s0;
      && Step(s, r, {h}) && Base(r) && r.current == None
      && h < |r.blocks| && h in r.open && r.blocks[h].instrs == [] && r.blocks[h].succs == CondEdges(cond, h, b, b + 1)
  {
    hide BlocksOk, Step, AddEdge;
    StepRefl(s, {h});
    var s0 := if Allows(cond, true) then AddEdge(s, h, b, IfTrue) else s;
    if Allows(cond, true) { AddEdgeSteps(s, h, b, IfTrue); StepBase(s, s0, {h}); }
    if Allows(cond, false) {
      AddEdgeSteps(s0, h, b + 1, IfFalse);
      var s1 := AddEdge(s0, h, b + 1, IfFalse);
      StepBase(s0, s1, {h});
      StepTrans(s, s0, s1, {h}, {h});
    }
  }

  lemma StepRefl(s: State, X: set<BlockId>)
    requires Base(s) && Cur(s) <= X
    ensures Step(s, s, X)
  {
    hide Inv;
  }

  // The body is compiled, ending in s: control leaves it for the next round.
  lemma BodyLeaves(st: State, test: Option<Cond>, post: Option<Simple>, l: Label, ls: seq<Label>, s: State)
    requires Ready(st, ls) && Compiled(LoopBody(st, test, post.Some?, l), s, ls)
      && Grows(LoopBody(st, test, post.Some?, l), s)
    ensures var h, b, after, next := LoopHeader(st), LoopFirst(st), LoopFirst(st) + 1, LoopNext(st, post.Some?);
      Base(s) && next < |s.blocks| && EXIT < next
    ensures var h, b, after, next := LoopHeader(st), LoopFirst(st), LoopFirst(st) + 1, LoopNext(st, post.Some?);
      var j := JumpTo(s, next, RoundKind(post));
      && Ready(j, []) && Step(st, j, Own(st, ls)) && Later(s, j) && Exits(s, j, next, RoundKind(post))
      && Exits(st, j, h, Normal) && EndsWith(j, h, [], TestEdges(test, h, b, after))
      && Untouched(j, after) && (post.Some? ==> Untouched(j, after + 1))
  {
    hide BlocksOk, NoRepeats, JumpTo, LoopBody, Step, TestEdges;
    var h, b, after, next := LoopHeader(st), LoopFirst(st), LoopFirst(st) + 1, LoopNext(st, post.Some?);
    var t := LoopBody(st, test, post.Some?, l);
    LoopBodySteps(st, test, post.Some?, l, ls);
    StepBase(st, t, Cur(st));
    AboveLabels(st, ls);
    Bystander(t, s, ls, after);
    if post.Some? { Bystander(t, s, ls, after + 1); }
    JumpSteps(s, next, RoundKind(post));
    var j := JumpTo(s, next, RoundKind(post));
    StepBase(s, j, Cur(s));
    StepKeeps(s, j, Cur(s), after);
    if post.Some? { StepKeeps(s, j, Cur(s), after + 1); }
    LaterTrans(t, s, j);
    ExitsLater(st, t, j, h, Normal);
    EndsLater(t, j, h, [], TestEdges(test, h, b, after));
    StepMore(st, t, Cur(st), Own(st, ls));
    StepTrans(st, t, s, Own(st, ls), Own(t, ls));
    StepTrans(st, s, j, Own(st, ls), Cur(s)) by { StepCurrent(st, s, Own(st, ls)); }
    assert ls + [] == ls;
    ReadyAfter(st, j, Own(st, ls), ls, []);
  }

  // The post statement: from its untouched block p, back to the header.
  lemma PostSteps(st: State, j: State, post: Simple, p: BlockId, h: BlockId, after: BlockId, trust: Instr -> bool)
    requires Ready(j, []) && j.current == None && Untouched(j, p) && Untouched(j, after) && p != after && EXIT < p
      && EXIT < h < |j.blocks|
    ensures var q := j.(current := Some(p));
      Ready(q, []) && Compiled(q, SimpleStep(q, post, trust), [])
    ensures var r := SimpleStep(j.(current := Some(p)), post, trust);
      var u := JumpTo(Ensure(r), h, LoopBack);
      && Step(j, u, {p}) && Base(u) && Later(r, u) && Exits(r, u, h, LoopBack) && Untouched(u, after)
  {
    hide BlocksOk, SimpleStep, JumpTo, Ensure, Step;
    var q := j.(current := Some(p));
    var r := SimpleStep(q, post, trust);
    SimpleSteps(q, post, trust);
    StepRefl(j, {p});
    SetCurrent(j, j, {p}, p);
    StepBase(q, r, Own(q, []));
    EnsureSteps(r);
    var e := Ensure(r);
    StepBase(r, e, Cur(r));
    JumpSteps(e, h, LoopBack);
    var u := JumpTo(e, h, LoopBack);
    StepBase(e, u, Cur(e));
    LaterTrans(r, e, u);
    StepTrans(j, q, r, {p}, Own(q, []));
    StepTrans(j, r, e, {p}, Cur(r)) by { StepCurrent(j, r, {p}); }
    StepTrans(j, e, u, {p}, Cur(e)) by { StepCurrent(j, e, {p}); }
    StepKeeps(j, u, {p}, after);
  }

  lemma LoopSteps(st: State, test: Option<Cond>, post: Option<Simple>, loop: seq<Stmt>, l: Label, trust: Instr -> bool)
    requires Ready(st, LabelsOfList(loop))
    requires Ready(LoopBody(st, test, post.Some?, l), LabelsOfList(loop)) ==>
      Compiled(LoopBody(st, test, post.Some?, l), BodyEnd(st, test, post, loop, l, trust), LabelsOfList(loop))
    ensures Compiled(st, CompileLoop(st, test, post, loop, l, trust), LabelsOfList(loop))
    ensures LoopShape(st, test, post, loop, l, trust, CompileLoop(st, test, post, loop, l, trust))
    ensures Resumes(CompileLoop(st, test, post, loop, l, trust), LoopFirst(st) + 1)
  {
    hide BlocksOk, NoRepeats, JumpTo, Step, TestEdges, LoopBody, CompileList, SimpleStep, Ensure, Later, Exits,
      EndsWith, LoopShape, Live, OpenInRange;
    var ls := LabelsOfList(loop);
    var h, b, after, next := LoopHeader(st), LoopFirst(st), LoopFirst(st) + 1, LoopNext(st, post.Some?);
    var t, s := LoopBody(st, test, post.Some?, l), BodyEnd(st, test, post, loop, l, trust);
    LoopBodySteps(st, test, post.Some?, l, ls);
    BodyLeaves(st, test, post, l, ls, s);
    StepBase(st, t, Cur(st));
    var j := JumpTo(s, next, RoundKind(post));
    StepBase(st, j, Own(st, ls));
    var u := LoopPost(st, post, s, trust);
    if post.Some? {
      PostSteps(st, j, post.value, next, h, after, trust);
      StepBase(j, u, {next});
      StepTrans(st, j, u, Own(st, ls), {next});
    }
    LoopEnds(st, u, LabelsOfList(loop), CompileLoop(st, test, post, loop, l, trust));
    var r := CompileLoop(st, test, post, loop, l, trust);
    LoopCollect(st, test, post, loop, l, trust, j, u, r);
  }

  lemma LoopEnds(st: State, u: State, ls: seq<Label>, r: State)
    requires Ready(st, ls) && Base(u) && u.current == None && Step(st, u, Own(st, ls))
      && Untouched(u, LoopFirst(st) + 1)
    requires Inv(r) && r == u.(frames := st.frames, current := Some(LoopFirst(st) + 1))
    ensures Compiled(st, r, ls) && Later(u, r) && Resumes(r, LoopFirst(st) + 1)
  {
    hide BlocksOk, NoRepeats, Step;
    var after := LoopFirst(st) + 1;
    SetCurrent(st, u, Own(st, ls), after);
    StepFrames(st, u.(current := Some(after)), Own(st, ls), st.frames);
    assert r == u.(current := Some(after)).(frames := st.frames);
    forall b | 0 <= b < |u.blocks| ensures Onward(u, r, b) {}
  }

  lemma LoopCollect(st: State, test: Option<Cond>, post: Option<Simple>, loop: seq<Stmt>, l: Label,
      trust: Instr -> bool, j: State, u: State, r: State)
    requires Inv(st) && Inv(BodyEnd(st, test, post, loop, l, trust)) && LoopNext(st, post.Some?) < |j.blocks|
    requires var s, next := BodyEnd(st, test, post, loop, l, trust), LoopNext(st, post.Some?);
      LoopSize(st, post.Some?) <= |s.blocks| && j == JumpTo(s, next, RoundKind(post)) && Later(s, j)
        && Exits(s, j, next, RoundKind(post))
    requires Exits(st, j, LoopHeader(st), Normal)
      && EndsWith(j, LoopHeader(st), [], TestEdges(test, LoopHeader(st), LoopFirst(st), LoopFirst(st) + 1))
    requires var t := LoopBody(st, test, post.Some?, l);
      Ready(t, LabelsOfList(loop)) && t.current == Some(LoopFirst(st)) && Untouched(t, LoopFirst(st))
        && t.labels == st.labels
    requires if post.None? then u == j else
      var p := j.(current := Some(LoopNext(st, true)));
      && Ready(p, []) && Untouched(p, LoopNext(st, true)) && p.labels == st.labels
      && Later(j, u) && Later(SimpleStep(p, post.value, trust), u)
        && Exits(SimpleStep(p, post.value, trust), u, LoopHeader(st), LoopBack)
    requires Later(u, r)
    ensures LoopShape(st, test, post, loop, l, trust, r)
  {
    hide BlocksOk, NoRepeats, JumpTo, Step, TestEdges, LoopBody, CompileList, SimpleStep, Ensure, Later, Ready, Exits;
    var s, next := BodyEnd(st, test, post, loop, l, trust), LoopNext(st, post.Some?);
    if post.Some? {
      LaterTrans(j, u, r);
      var q := SimpleStep(j.(current := Some(next)), post.value, trust);
      LaterTrans(q, u, r);
      ExitsLater(q, u, r, LoopHeader(st), LoopBack);
    }
    LaterTrans(s, j, r);
    ExitsLater(s, j, r, next, RoundKind(post));
    ExitsLater(st, j, r, LoopHeader(st), Normal);
    EndsLater(j, r, LoopHeader(st), [], TestEdges(test, LoopHeader(st), LoopFirst(st), LoopFirst(st) + 1));
  }

  /****** switch and select ******/

  // The edges out of a head c into the first n clauses, whose blocks are given.
  ghost function CaseEdges(c: BlockId, blocks: seq<BlockId>): seq<Edge> {
    if blocks == [] then [] else
      CaseEdges(c, blocks[..|blocks| - 1]) + [Edge(c, blocks[|blocks| - 1], EdgeKind.Case)]
  }

  // One clause: entered at an untouched block, compiled from e to r, left for `to`.
  ghost predicate ClauseShape(e: State, r: State, ls: seq<Label>, block: BlockId, F: State, to: BlockId,
      kind: EdgeKind) {
    && Ready(e, ls) && e.current == Some(block) && Untouched(e, block)
    && Later(r, F) && Exits(r, F, to, kind)
  }

  lemma ClauseShapeLater(e: State, r: State, ls: seq<Label>, block: BlockId, s: State, F: State, to: BlockId,
      kind: EdgeKind)
    requires ClauseShape(e, r, ls, block, s, to, kind) && Later(s, F)
    ensures ClauseShape(e, r, ls, block, F, to, kind)
  {
    hide Later, Ready, Exits;
    LaterTrans(r, s, F);
    ExitsLater(r, s, F, to, kind);
  }

  // Between clauses: the head still open with its edges so far, control nowhere.
  ghost predicate Between(st: State, s: State, ls: seq<Label>, edges: seq<Edge>) {
    && Base(st) && Base(s) && s.current == None && Step(st, s, Own(st, ls))
    && Head(st) < |s.blocks| && Head(st) in s.open && Untouched(s, Settled(st))
    && s.blocks[Head(st)].instrs == Instrs(st) && s.blocks[Head(st)].succs == edges
    && (forall l :: l in ls ==> l in st.labels && st.labels[l] < |st.blocks|)
  }

  // e: clause block entered from s; r: its body compiled; u: left for `to`.
  lemma ClauseSteps(st: State, s: State, e: State, r: State, ls: seq<Label>, ks: seq<Label>, ms: seq<Label>,
      edges: seq<Edge>, block: BlockId, to: BlockId, kind: EdgeKind)
    requires Ready(st, ls + (ks + ms)) && Between(st, s, ls, edges)
    requires Base(e) && Step(s, e, {Head(st), block}) && |st.blocks| <= block < |e.blocks| && block != Head(st)
      && block != Settled(st)
    requires e.current == Some(block) && Untouched(e, block)
    requires e.blocks[Head(st)].instrs == Instrs(st) && Head(st) in e.open
      && e.blocks[Head(st)].succs == edges + [Edge(Head(st), block, EdgeKind.Case)]
    requires Compiled(e, r, ks) && |e.blocks| <= |r.blocks| && Target(|r.blocks|, to)
    ensures Ready(e, ks)
    ensures var u := JumpTo(r, to, kind);
      && Between(st, u, ls + ks, edges + [Edge(Head(st), block, EdgeKind.Case)])
      && ClauseShape(e, r, ks, block, u, to, kind) && Later(s, u)
    ensures forall b :: |st.blocks| <= b < |s.blocks| && b != block && b != Head(st) && Untouched(s, b) ==>
      Untouched(JumpTo(r, to, kind), b)
  {
    hide BlocksOk, NoRepeats, JumpTo, Step, Later;
    var c, after := Head(st), Settled(st);
    ReadyClause(st, s, e, ls, ks, ms, edges, block);
    StepBase(st, s, Own(st, ls));
    StepBase(s, e, {c, block});
    StepKeeps(s, e, {c, block}, after);
    AboveLabels(e, ks);
    Bystander(e, r, ks, after);
    Bystander(e, r, ks, c);
    JumpSteps(r, to, kind);
    var u := JumpTo(r, to, kind);
    StepBase(r, u, Cur(r));
    StepKeeps(r, u, Cur(r), after);
    StepKeeps(r, u, Cur(r), c);
    LaterTrans(s, e, r);
    LaterTrans(s, r, u);
    ClauseWhole(st, s, e, r, u, ls, ks, block);
    forall b | |st.blocks| <= b < |s.blocks| && b != block && b != c && Untouched(s, b) ensures Untouched(u, b) {
      StepKeeps(s, e, {c, block}, b);
      Bystander(e, r, ks, b);
      StepKeeps(r, u, Cur(r), b);
    }
    forall l | l in ls + ks ensures l in st.labels && st.labels[l] < |st.blocks| {
      assert l in ls + (ks + ms);
    }
  }

  lemma ClauseWhole(st: State, s: State, e: State, r: State, u: State, ls: seq<Label>, ks: seq<Label>, block: BlockId)
    requires Step(st, s, Own(st, ls)) && Step(s, e, {Head(st), block}) && Step(e, r, Own(e, ks)) && Step(r, u, Cur(r))
    requires |st.blocks| <= block && e.current == Some(block) && e.labels == st.labels
    ensures Step(st, u, Own(st, ls + ks))
  {
    hide Step;
    var X := Own(st, ls + ks);
    StepMore(st, s, Own(st, ls), X);
    StepTrans(st, s, e, X, {Head(st), block});
    StepTrans(st, e, r, X, Own(e, ks));
    StepTrans(st, r, u, X, Cur(r)) by { StepCurrent(st, r, X); }
  }

  lemma ReadyClause(st: State, s: State, e: State, ls: seq<Label>, ks: seq<Label>, ms: seq<Label>, edges: seq<Edge>,
      block: BlockId)
    requires Ready(st, ls + (ks + ms)) && Between(st, s, ls, edges)
    requires Base(e) && Step(s, e, {Head(st), block}) && |st.blocks| <= block
    ensures Ready(e, ks) && e.labels == st.labels
    ensures forall b :: b in LabelBlocks(e, ks) ==> b < |st.blocks| && b != Head(st)
  {
    hide BlocksOk, Step, Same, Later;
    StepMore(st, s, Own(st, ls), Own(st, ls));
    StepTrans(st, s, e, Own(st, ls), {Head(st), block});
    NotOwn(st, ls, ks + ms);
    ReadyAfter(st, e, Own(st, ls), ls, ks + ms);
    ReadyFirst(e, ks, ms);
    StepBase(st, e, Own(st, ls));
    forall b | b in LabelBlocks(e, ks) ensures b < |st.blocks| && b != Head(st) {
      var l :| l in ks && l in e.labels && e.labels[l] == b;
      assert l in ls + (ks + ms);
    }
  }

  ghost function NoMatch(st: State, clauses: seq<Clause>): seq<Edge> {
    if HasDefault(clauses) then [] else [Edge(Head(st), Settled(st), Normal)]
  }

  ghost function SwitchBlocks(st: State, n: nat): (r: seq<BlockId>)
    ensures |r| == n
  {
    if n == 0 then [] else SwitchBlocks(st, n - 1) + [SwitchBlock(st, n - 1)]
  }

  ghost function SwitchCase(st: State, clauses: seq<Clause>, i: nat, l: Label, trust: Instr -> bool): (r: State)
    requires Inv(st) && i < |clauses|
    ensures Inv(r)
  {
    SwitchEnter(st, i, SwitchAt(st, clauses, i, l, trust))
  }

  ghost function SwitchCaseEnd(st: State, clauses: seq<Clause>, i: nat, l: Label, trust: Instr -> bool): (r: State)
    requires Inv(st) && i < |clauses|
    ensures Inv(r) && Extends(SwitchCase(st, clauses, i, l, trust), r)
  {
    CompileCase(SwitchCase(st, clauses, i, l, trust), clauses[i].body, trust).0
  }

  // Clause i of n is left for the next clause's block or for the block after the switch.
  predicate GoesNext(clauses: seq<Clause>, i: nat)
    requires i < |clauses|
  {
    FallsOut(clauses[i].body) && i + 1 < |clauses|
  }

  ghost predicate SwitchClauseShape(st: State, clauses: seq<Clause>, i: nat, l: Label, trust: Instr -> bool, F: State)
    requires Inv(st) && i < |clauses|
  {
    SwitchCase(st, clauses, i, l, trust).labels == st.labels &&
    ClauseShape(SwitchCase(st, clauses, i, l, trust), SwitchCaseEnd(st, clauses, i, l, trust),
      LabelsOfList(clauses[i].body),
      SwitchBlock(st, i), F, if GoesNext(clauses, i) then SwitchBlock(st, i + 1) else Settled(st),
      if GoesNext(clauses, i) then EdgeKind.Fallthrough else Normal)
  }

  ghost predicate SwitchShape(st: State, clauses: seq<Clause>, l: Label, trust: Instr -> bool, F: State)
    requires Inv(st)
  {
    && EndsWith(F, Head(st), Instrs(st), NoMatch(st, clauses) + CaseEdges(Head(st), SwitchBlocks(st, |clauses|)))
    && (forall i :: 0 <= i < |clauses| ==> SwitchClauseShape(st, clauses, i, l, trust, F))
  }

  // Allocating n blocks after making sure there is a head.
  lemma HeadBlocks(st: State, n: nat)
    requires Base(st)
    ensures var s := NewBlocks(Ensure(st), n).(current := None);
      && Step(st, s, Cur(st)) && Base(s)
      && Head(st) < |s.blocks| && Head(st) in s.open && s.blocks[Head(st)].instrs == Instrs(st)
        && s.blocks[Head(st)].succs == []
      && forall b :: Settled(st) <= b < Settled(st) + n ==> Untouched(s, b)
  {
    hide BlocksOk, NewBlocks, Step;
    var e := Ensure(st);
    EnsureSteps(st);
    StepBase(st, e, Cur(st));
    NewBlocksSteps(e, n);
    var s := NewBlocks(e, n).(current := None);
    StepBase(e, s, {});
    StepKeeps(e, s, {}, Head(st));
    StepTrans(st, e, s, Cur(st), {});
    forall b | Settled(st) <= b < Settled(st) + n ensures Untouched(s, b) { assert Untouched(NewBlocks(e, n), b); }
  }

  lemma SwitchStartFrame(st: State, clauses: seq<Clause>, l: Label)
    requires Base(st)
    ensures Between(st, SwitchStart(st, clauses, l), [], NoMatch(st, clauses))
    ensures forall i :: 0 <= i < |clauses| ==> Untouched(SwitchStart(st, clauses, l), SwitchBlock(st, i))
  {
    hide BlocksOk, NewBlocks, Step, NoRepeats, Ensure, AddEdge;
    var n := |clauses| + 1;
    HeadBlocks(st, n);
    var s := NewBlocks(Ensure(st), n).(current := None);
    var c, after := Head(st), Settled(st);
    OneFirst(Ensure(st), |clauses|);
    var t := if HasDefault(clauses) then s else AddEdge(s, c, after, Normal);
    if !HasDefault(clauses) {
      AddEdgeSteps(s, c, after, Normal);
      StepBase(s, t, {c});
      StepTrans(st, s, t, Cur(st), {c});
      StepBase(st, t, Cur(st));
    }
    var r := SwitchStart(st, clauses, l);
    assert r == t.(frames := r.frames) by { EdgeCommutes(NewBlocks(Ensure(st), n), c, after, Normal); }
    StepFrames(st, t, Cur(st), r.frames);
    StepMore(st, r, Cur(st), Own(st, []));
    assert OpenInRange(r) by { StepBase(st, r, Cur(st)); }
    assert Untouched(s, after);
    if !HasDefault(clauses) { StepKeeps(s, t, {c}, after); }
    forall i | 0 <= i < |clauses| ensures Untouched(r, SwitchBlock(st, i)) {
      assert Untouched(s, SwitchBlock(st, i));
      if !HasDefault(clauses) { StepKeeps(s, t, {c}, SwitchBlock(st, i)); }
    }
  }

  lemma {:induction false} OneFirst(st: State, n: nat)
    requires Inv(st)
    ensures NewBlocks(NewBlock(st), n) == NewBlocks(st, n + 1)
    decreases n
  {
    hide BlocksOk, NewBlock;
    if n > 0 { OneFirst(st, n - 1); }
    else { assert NewBlocks(st, 0) == st; assert NewBlocks(st, 1) == NewBlock(NewBlocks(st, 0)); }
  }

  lemma EdgeCommutes(s: State, from: BlockId, to: BlockId, kind: EdgeKind)
    requires Inv(s) && from < |s.blocks| && from != EXIT && Target(|s.blocks|, to)
    ensures AddEdge(s.(current := None), from, to, kind) == AddEdge(s, from, to, kind).(current := None)
  {
    hide BlocksOk;
  }

  lemma SwitchEnterFrame(st: State, clauses: seq<Clause>, i: nat, s: State, ls: seq<Label>, edges: seq<Edge>)
    requires Between(st, s, ls, edges) && SwitchBlock(st, i) < |s.blocks| && Untouched(s, SwitchBlock(st, i))
      && Head(st) < |st.blocks| + 1
    ensures var e, c, b := SwitchEnter(st, i, s), Head(st), SwitchBlock(st, i);
      && Base(e) && Step(s, e, {c, b}) && |st.blocks| <= b < |e.blocks| && b != c && b != Settled(st)
      && e.current == Some(b) && Untouched(e, b)
      && e.blocks[c].instrs == Instrs(st) && c in e.open && e.blocks[c].succs == edges + [Edge(c, b, EdgeKind.Case)]
  {
    hide BlocksOk, Step, AddEdge, Instrs;
    var c, b := Head(st), SwitchBlock(st, i);
    AddEdgeSteps(s, c, b, EdgeKind.Case);
    var t := AddEdge(s, c, b, EdgeKind.Case);
    StepBase(s, t, {c});
    StepKeeps(s, t, {c}, b);
    OpenKept(s, t, c);
    StepMore(s, t, {c}, {c, b});
    SetCurrent(s, t, {c, b}, b);
  }

  lemma OpenKept(s: State, t: State, c: BlockId)
    requires t.open == s.open
    ensures c in s.open ==> c in t.open
  {}

  lemma {:induction false} SwitchSteps(st: State, clauses: seq<Clause>, n: nat, l: Label, trust: Instr -> bool,
      ms: seq<Label>)
    requires n <= |clauses| && Ready(st, LabelsOfClauses(clauses, n) + ms)
    requires forall i :: 0 <= i < n && Ready(SwitchCase(st, clauses, i, l, trust), LabelsOfList(clauses[i].body)) ==>
      SwitchBodyDone(st, clauses, i, l, trust)
    ensures Between(st, SwitchAt(st, clauses, n, l, trust), LabelsOfClauses(clauses, n),
      NoMatch(st, clauses) + CaseEdges(Head(st), SwitchBlocks(st, n)))
    ensures forall i :: 0 <= i < n ==> SwitchClauseShape(st, clauses, i, l, trust, SwitchAt(st, clauses, n, l, trust))
    ensures forall i :: n <= i < |clauses| ==> Untouched(SwitchAt(st, clauses, n, l, trust), SwitchBlock(st, i))
    decreases n
  {
    hide BlocksOk, Step, Later, Ready, Between, Untouched, ClauseShape, SwitchEnter, SwitchStart, JumpTo, CompileCase,
      SwitchCase, SwitchCaseEnd, SwitchClauseShape, SwitchBodyDone, NoMatch, CaseEdges, Live, OpenInRange, HasDefault,
      SwitchLeave, Inv, LabelsOfList;
    ReadyBase(st, LabelsOfClauses(clauses, n) + ms);
    if n == 0 {
      SwitchStartFrame(st, clauses, l);
      NoEdges(NoMatch(st, clauses), Head(st));
    } else {
      var i := n - 1;
      var ls, ks := LabelsOfClauses(clauses, i), LabelsOfList(clauses[i].body);
      assert ls + (ks + ms) == LabelsOfClauses(clauses, n) + ms;
      SwitchSteps(st, clauses, i, l, trust, ks + ms);
      SwitchStep(st, clauses, i, l, trust, ls, ks, ms, NoMatch(st, clauses) + CaseEdges(Head(st), SwitchBlocks(st, i)));
      var s, u := SwitchAt(st, clauses, i, l, trust), SwitchAt(st, clauses, n, l, trust);
      forall j | 0 <= j < n ensures SwitchClauseShape(st, clauses, j, l, trust, u) {
        if j < i { SwitchClauseLater(st, clauses, j, l, trust, s, u); }
      }
      AppendEdges(NoMatch(st, clauses), Head(st), SwitchBlocks(st, i), SwitchBlock(st, i));
    }
  }

  lemma SwitchClauseLater(st: State, clauses: seq<Clause>, i: nat, l: Label, trust: Instr -> bool, s: State, F: State)
    requires Inv(st) && i < |clauses| && SwitchClauseShape(st, clauses, i, l, trust, s) && Later(s, F)
    ensures SwitchClauseShape(st, clauses, i, l, trust, F)
  {
    hide BlocksOk, Later, Ready, Untouched, ClauseShape, SwitchCase, SwitchCaseEnd;
    ClauseShapeLater(SwitchCase(st, clauses, i, l, trust), SwitchCaseEnd(st, clauses, i, l, trust),
      LabelsOfList(clauses[i].body),
      SwitchBlock(st, i), s, F, if GoesNext(clauses, i) then SwitchBlock(st, i + 1) else Settled(st),
      if GoesNext(clauses, i) then EdgeKind.Fallthrough else Normal);
  }

  lemma NoEdges(start: seq<Edge>, c: BlockId)
    ensures start + CaseEdges(c, []) == start && CaseEdges(c, []) == []
  {}

  lemma AppendEdges(start: seq<Edge>, c: BlockId, blocks: seq<BlockId>, b: BlockId)
    ensures start + CaseEdges(c, blocks + [b]) == (start + CaseEdges(c, blocks)) + [Edge(c, b, EdgeKind.Case)]
  {
    assert (blocks + [b])[..|blocks|] == blocks;
  }

  lemma ReadyBase(st: State, ls: seq<Label>)
    requires Ready(st, ls)
    ensures Base(st) && Ready(st, [])
  {}

  ghost predicate SwitchBodyDone(st: State, clauses: seq<Clause>, i: nat, l: Label, trust: Instr -> bool)
    requires Inv(st) && i < |clauses|
  {
    && Compiled(SwitchCase(st, clauses, i, l, trust), SwitchCaseEnd(st, clauses, i, l, trust),
      LabelsOfList(clauses[i].body))
    && CompileCase(SwitchCase(st, clauses, i, l, trust), clauses[i].body, trust).1 == FallsOut(clauses[i].body)
  }

  lemma SwitchStep(st: State, clauses: seq<Clause>, i: nat, l: Label, trust: Instr -> bool, ls: seq<Label>,
      ks: seq<Label>, ms: seq<Label>, edges: seq<Edge>)
    requires i < |clauses| && Ready(st, ls + (ks + ms)) && ks == LabelsOfList(clauses[i].body)
    requires Between(st, SwitchAt(st, clauses, i, l, trust), ls, edges)
    requires forall j :: i <= j < |clauses| ==> Untouched(SwitchAt(st, clauses, i, l, trust), SwitchBlock(st, j))
    requires Ready(SwitchCase(st, clauses, i, l, trust), ks) ==> SwitchBodyDone(st, clauses, i, l, trust)
    ensures var s, u := SwitchAt(st, clauses, i, l, trust), SwitchAt(st, clauses, i + 1, l, trust);
      && Between(st, u, ls + ks, edges + [Edge(Head(st), SwitchBlock(st, i), EdgeKind.Case)])
      && SwitchClauseShape(st, clauses, i, l, trust, u) && Later(s, u)
      && forall j :: i < j < |clauses| ==> Untouched(u, SwitchBlock(st, j))
  {
    hide BlocksOk, Step, Later, Ready, Untouched, JumpTo, CompileCase, SwitchEnter, SwitchStart;
    var s, e, r := SwitchAt(st, clauses, i, l, trust), SwitchCase(st, clauses, i, l, trust),
      SwitchCaseEnd(st, clauses, i, l, trust);
    var b := SwitchBlock(st, i);
    var to := if GoesNext(clauses, i) then SwitchBlock(st, i + 1) else Settled(st);
    var kind := if GoesNext(clauses, i) then EdgeKind.Fallthrough else Normal;
    InUse(s, b);
    SwitchEnterFrame(st, clauses, i, s, ls, edges);
    StepBase(st, s, Own(st, ls));
    ReadyClause(st, s, e, ls, ks, ms, edges, b);
    var u := SwitchAt(st, clauses, i + 1, l, trust);
    assert u == JumpTo(r, to, kind);
    ClauseSteps(st, s, e, r, ls, ks, ms, edges, b, to, kind);
    forall j | i < j < |clauses| ensures Untouched(u, SwitchBlock(st, j)) {
      assert Untouched(s, SwitchBlock(st, j));
      assert SwitchBlock(st, j) != Head(st);
    }
  }

  lemma InUse(s: State, b: BlockId)
    requires Untouched(s, b)
    ensures b < |s.blocks|
  {}

  lemma MultiEnds(st: State, s: State, ls: seq<Label>, edges: seq<Edge>)
    requires Ready(st, ls) && Between(st, s, ls, edges) && st.frames <= s.frames
    ensures var r := MultiDone(st, s);
      Compiled(st, r, ls) && Later(s, r) && EndsWith(r, Head(st), Instrs(st), edges) && Resumes(r, Settled(st))
  {
    hide BlocksOk, Step, Later, NoRepeats, Instrs;
    var r, c, after := MultiDone(st, s), Head(st), Settled(st);
    CloseSteps(s, c, after);
    var t := Close(s.(current := Some(after)), c);
    StepFrames(s, t, {c, after}, st.frames);
    StepBase(s, r, {c, after});
    StepTrans(st, s, r, Own(st, ls), {c, after});
  }

  lemma SwitchWhole(st: State, clauses: seq<Clause>, l: Label, trust: Instr -> bool)
    requires Ready(st, LabelsOfClauses(clauses, |clauses|))
    requires forall i ::
      0 <= i < |clauses| && Ready(SwitchCase(st, clauses, i, l, trust), LabelsOfList(clauses[i].body)) ==>
      SwitchBodyDone(st, clauses, i, l, trust)
    ensures Compiled(st, CompileSwitch(st, clauses, l, trust), LabelsOfClauses(clauses, |clauses|))
    ensures SwitchShape(st, clauses, l, trust, CompileSwitch(st, clauses, l, trust))
    ensures Resumes(CompileSwitch(st, clauses, l, trust), Settled(st))
  {
    hide BlocksOk, Step, Later, Between, Untouched, ClauseShape, SwitchAt, SwitchClauseShape, SwitchBodyDone, NoRepeats,
      SwitchCase;
    var n, ls := |clauses|, LabelsOfClauses(clauses, |clauses|);
    assert ls + [] == ls;
    SwitchSteps(st, clauses, n, l, trust, []);
    var s, r := SwitchAt(st, clauses, n, l, trust), CompileSwitch(st, clauses, l, trust);
    MultiEnds(st, s, ls, NoMatch(st, clauses) + CaseEdges(Head(st), SwitchBlocks(st, n)));
    forall i | 0 <= i < n ensures SwitchClauseShape(st, clauses, i, l, trust, r) {
      SwitchClauseLater(st, clauses, i, l, trust, s, r);
    }
  }

  lemma SwitchShapeLater(st: State, clauses: seq<Clause>, l: Label, trust: Instr -> bool, r: State, F: State)
    requires Inv(st) && SwitchShape(st, clauses, l, trust, r) && Later(r, F)
    ensures SwitchShape(st, clauses, l, trust, F)
  {
    hide BlocksOk, Later, SwitchClauseShape, EndsWith, NoMatch, CaseEdges, Instrs;
    EndsLater(r, F, Head(st), Instrs(st), NoMatch(st, clauses) + CaseEdges(Head(st), SwitchBlocks(st, |clauses|)));
    forall i | 0 <= i < |clauses| ensures SwitchClauseShape(st, clauses, i, l, trust, F) {
      SwitchClauseLater(st, clauses, i, l, trust, r, F);
    }
  }

  ghost function SelectBlock(st: State, clauses: seq<Clause>, i: nat, l: Label, trust: Instr -> bool): BlockId
    requires Inv(st) && i < |clauses|
  {
    |SelectAt(st, clauses, i, l, trust).blocks|
  }

  ghost function SelectBlocks(st: State, clauses: seq<Clause>, n: nat, l: Label,
      trust: Instr -> bool): (r: seq<BlockId>)
    requires Inv(st) && n <= |clauses|
    ensures |r| == n
    decreases n
  {
    if n == 0 then [] else SelectBlocks(st, clauses, n - 1, l, trust) + [SelectBlock(st, clauses, n - 1, l, trust)]
  }

  ghost function SelectCase(st: State, clauses: seq<Clause>, i: nat, l: Label, trust: Instr -> bool): (r: State)
    requires Inv(st) && i < |clauses|
    ensures Inv(r)
  {
    SelectEnter(st, SelectAt(st, clauses, i, l, trust))
  }

  ghost function SelectCaseEnd(st: State, clauses: seq<Clause>, i: nat, l: Label, trust: Instr -> bool): (r: State)
    requires Inv(st) && i < |clauses|
    ensures Inv(r) && Extends(SelectCase(st, clauses, i, l, trust), r)
  {
    CompileList(SelectCase(st, clauses, i, l, trust), clauses[i].body, trust)
  }

  ghost predicate SelectClauseShape(st: State, clauses: seq<Clause>, i: nat, l: Label, trust: Instr -> bool, F: State)
    requires Inv(st) && i < |clauses|
  {
    SelectCase(st, clauses, i, l, trust).labels == st.labels &&
    ClauseShape(SelectCase(st, clauses, i, l, trust), SelectCaseEnd(st, clauses, i, l, trust),
      LabelsOfList(clauses[i].body),
      SelectBlock(st, clauses, i, l, trust), F, Settled(st), Normal)
  }

  ghost predicate SelectShape(st: State, clauses: seq<Clause>, l: Label, trust: Instr -> bool, F: State)
    requires Inv(st)
  {
    && EndsWith(F, Head(st), Instrs(st), CaseEdges(Head(st), SelectBlocks(st, clauses, |clauses|, l, trust)))
    && (forall i :: 0 <= i < |clauses| ==> SelectClauseShape(st, clauses, i, l, trust, F))
  }

  lemma SelectStartFrame(st: State, l: Label)
    requires Base(st)
    ensures Between(st, SelectStart(st, l), [], [])
  {
    hide BlocksOk, Step, NoRepeats, Ensure, NewBlock;
    HeadBlocks(st, 1);
    var s := NewBlocks(Ensure(st), 1).(current := None);
    assert NewBlocks(Ensure(st), 1) == NewBlock(NewBlocks(Ensure(st), 0));
    var r := SelectStart(st, l);
    assert r == s.(frames := r.frames);
    StepFrames(st, s, Cur(st), r.frames);
    StepMore(st, r, Cur(st), Own(st, []));
    StepBase(st, r, Cur(st));
    assert Untouched(s, Settled(st));
  }

  lemma SelectEnterFrame(st: State, s: State, ls: seq<Label>, edges: seq<Edge>)
    requires Between(st, s, ls, edges)
    ensures var e, c, b := SelectEnter(st, s), Head(st), |s.blocks|;
      && Base(e) && Step(s, e, {c, b}) && |st.blocks| <= b < |e.blocks| && b != c && b != Settled(st)
      && e.current == Some(b) && Untouched(e, b)
      && e.blocks[c].instrs == Instrs(st) && c in e.open && e.blocks[c].succs == edges + [Edge(c, b, EdgeKind.Case)]
  {
    hide BlocksOk, Step, AddEdge, Instrs, NewBlock;
    var c, b := Head(st), |s.blocks|;
    NewBlockSteps(s);
    var n := NewBlock(s);
    StepBase(s, n, {});
    StepBase(st, s, Own(st, ls));
    StepKeeps(s, n, {}, c);
    AddEdgeSteps(n, c, b, EdgeKind.Case);
    var t := AddEdge(n, c, b, EdgeKind.Case);
    StepBase(n, t, {c});
    StepKeeps(n, t, {c}, b);
    StepMore(s, n, {}, {c, b});
    StepTrans(s, n, t, {c, b}, {c});
    SetCurrent(s, t, {c, b}, b);
  }

  lemma {:induction false} SelectSteps(st: State, clauses: seq<Clause>, n: nat, l: Label, trust: Instr -> bool,
      ms: seq<Label>)
    requires n <= |clauses| && Ready(st, LabelsOfClauses(clauses, n) + ms)
    requires forall i :: 0 <= i < n && Ready(SelectCase(st, clauses, i, l, trust), LabelsOfList(clauses[i].body)) ==>
      SelectBodyDone(st, clauses, i, l, trust)
    ensures Between(st, SelectAt(st, clauses, n, l, trust), LabelsOfClauses(clauses, n),
      CaseEdges(Head(st), SelectBlocks(st, clauses, n, l, trust)))
    ensures forall i :: 0 <= i < n ==> SelectClauseShape(st, clauses, i, l, trust, SelectAt(st, clauses, n, l, trust))
    decreases n
  {
    hide BlocksOk, Step, Later, Ready, Between, Untouched, ClauseShape, SelectEnter, SelectStart, JumpTo, CompileList,
      SelectCase, SelectCaseEnd, SelectClauseShape, SelectBodyDone, CaseEdges, Live, OpenInRange, SelectBlock;
    ReadyBase(st, LabelsOfClauses(clauses, n) + ms);
    if n == 0 {
      SelectStartFrame(st, l);
      NoEdges([], Head(st));
    } else {
      var i := n - 1;
      var ls, ks := LabelsOfClauses(clauses, i), LabelsOfList(clauses[i].body);
      assert ls + (ks + ms) == LabelsOfClauses(clauses, n) + ms;
      SelectSteps(st, clauses, i, l, trust, ks + ms);
      SelectStep(st, clauses, i, l, trust, ls, ks, ms, CaseEdges(Head(st), SelectBlocks(st, clauses, i, l, trust)));
      var s, u := SelectAt(st, clauses, i, l, trust), SelectAt(st, clauses, n, l, trust);
      forall j | 0 <= j < n ensures SelectClauseShape(st, clauses, j, l, trust, u) {
        if j < i { SelectClauseLater(st, clauses, j, l, trust, s, u); }
      }
      AppendEdges([], Head(st), SelectBlocks(st, clauses, i, l, trust), SelectBlock(st, clauses, i, l, trust));
      assert [] + CaseEdges(Head(st), SelectBlocks(st, clauses, i, l, trust)) ==
        CaseEdges(Head(st), SelectBlocks(st, clauses, i, l, trust));
      assert [] + CaseEdges(Head(st), SelectBlocks(st, clauses, n, l, trust)) ==
        CaseEdges(Head(st), SelectBlocks(st, clauses, n, l, trust));
    }
  }

  ghost predicate SelectBodyDone(st: State, clauses: seq<Clause>, i: nat, l: Label, trust: Instr -> bool)
    requires Inv(st) && i < |clauses|
  {
    Compiled(SelectCase(st, clauses, i, l, trust), SelectCaseEnd(st, clauses, i, l, trust),
      LabelsOfList(clauses[i].body))
  }

  lemma SelectClauseLater(st: State, clauses: seq<Clause>, i: nat, l: Label, trust: Instr -> bool, s: State, F: State)
    requires Inv(st) && i < |clauses| && SelectClauseShape(st, clauses, i, l, trust, s) && Later(s, F)
    ensures SelectClauseShape(st, clauses, i, l, trust, F)
  {
    hide BlocksOk, Later, Ready, Untouched, ClauseShape, SelectCase, SelectCaseEnd, SelectBlock;
    ClauseShapeLater(SelectCase(st, clauses, i, l, trust), SelectCaseEnd(st, clauses, i, l, trust),
      LabelsOfList(clauses[i].body),
      SelectBlock(st, clauses, i, l, trust), s, F, Settled(st), Normal);
  }

  lemma SelectStep(st: State, clauses: seq<Clause>, i: nat, l: Label, trust: Instr -> bool, ls: seq<Label>,
      ks: seq<Label>, ms: seq<Label>, edges: seq<Edge>)
    requires i < |clauses| && Ready(st, ls + (ks + ms)) && ks == LabelsOfList(clauses[i].body)
    requires Between(st, SelectAt(st, clauses, i, l, trust), ls, edges)
    requires Ready(SelectCase(st, clauses, i, l, trust), ks) ==> SelectBodyDone(st, clauses, i, l, trust)
    ensures var s, u, b := SelectAt(st, clauses, i, l, trust), SelectAt(st, clauses, i + 1, l, trust),
      SelectBlock(st, clauses, i, l, trust);
      && Between(st, u, ls + ks, edges + [Edge(Head(st), b, EdgeKind.Case)])
      && SelectClauseShape(st, clauses, i, l, trust, u) && Later(s, u)
  {
    hide BlocksOk, Step, Later, Ready, Untouched, JumpTo, CompileList, SelectEnter, SelectStart;
    var s, e, r := SelectAt(st, clauses, i, l, trust), SelectCase(st, clauses, i, l, trust),
      SelectCaseEnd(st, clauses, i, l, trust);
    var b := SelectBlock(st, clauses, i, l, trust);
    SelectEnterFrame(st, s, ls, edges);
    StepBase(st, s, Own(st, ls));
    ReadyClause(st, s, e, ls, ks, ms, edges, b);
    assert SelectAt(st, clauses, i + 1, l, trust) == JumpTo(r, Settled(st), Normal);
    ClauseSteps(st, s, e, r, ls, ks, ms, edges, b, Settled(st), Normal);
  }

  lemma SelectWhole(st: State, clauses: seq<Clause>, l: Label, trust: Instr -> bool)
    requires Ready(st, LabelsOfClauses(clauses, |clauses|))
    requires forall i ::
      0 <= i < |clauses| && Ready(SelectCase(st, clauses, i, l, trust), LabelsOfList(clauses[i].body)) ==>
      SelectBodyDone(st, clauses, i, l, trust)
    ensures Compiled(st, CompileSelect(st, clauses, l, trust), LabelsOfClauses(clauses, |clauses|))
    ensures SelectShape(st, clauses, l, trust, CompileSelect(st, clauses, l, trust))
    ensures Resumes(CompileSelect(st, clauses, l, trust), Settled(st))
  {
    hide BlocksOk, Step, Later, Between, Untouched, ClauseShape, SelectAt, SelectClauseShape, SelectBodyDone, NoRepeats,
      SelectCase, SelectBlocks;
    var n, ls := |clauses|, LabelsOfClauses(clauses, |clauses|);
    assert ls + [] == ls;
    SelectSteps(st, clauses, n, l, trust, []);
    var s, r := SelectAt(st, clauses, n, l, trust), CompileSelect(st, clauses, l, trust);
    MultiEnds(st, s, ls, CaseEdges(Head(st), SelectBlocks(st, clauses, n, l, trust)));
    forall i | 0 <= i < n ensures SelectClauseShape(st, clauses, i, l, trust, r) {
      SelectClauseLater(st, clauses, i, l, trust, s, r);
    }
  }

  lemma SelectShapeLater(st: State, clauses: seq<Clause>, l: Label, trust: Instr -> bool, r: State, F: State)
    requires Inv(st) && SelectShape(st, clauses, l, trust, r) && Later(r, F)
    ensures SelectShape(st, clauses, l, trust, F)
  {
    hide BlocksOk, Later, SelectClauseShape, EndsWith, CaseEdges, Instrs, SelectBlocks;
    EndsLater(r, F, Head(st), Instrs(st), CaseEdges(Head(st), SelectBlocks(st, clauses, |clauses|, l, trust)));
    forall i | 0 <= i < |clauses| ensures SelectClauseShape(st, clauses, i, l, trust, F) {
      SelectClauseLater(st, clauses, i, l, trust, r, F);
    }
  }
}
