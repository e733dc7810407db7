/**
 Building a whole body with and without trust.
 */
module MergedBuild {
  import opened Wrappers
  import opened Graph
  import opened Syntax
  import opened Building
  import opened Closing
  import opened Shapes
  import opened Steps
  import opened Merging
  import opened Splitting

  predicate Edgy(s: State, from: BlockId, to: BlockId) {
    from < |s.blocks| && from != EXIT && Target(|s.blocks|, to)
  }

  ghost function EdgeIf(s: State, yes: bool, from: BlockId, to: BlockId, kind: EdgeKind): (r: State)
    requires Inv(s) && Edgy(s, from, to)
    ensures Inv(r) && |r.blocks| == |s.blocks|
  {
    if yes then AddEdge(s, from, to, kind) else s
  }

  lemma EdgeIfMerged(s: State, s': State, m: Merge, w: Setting, yes: bool, from: BlockId, to: BlockId, c: BlockId,
      d: BlockId, kind: EdgeKind)
    requires Merged(s, s', m, w) && Inv(s) && Inv(s') && Edgy(s, from, to) && Edgy(s', c, d)
    requires Has(m, c) && Last(m, c) == from && Stands(m, d, to)
    ensures Merged(EdgeIf(s, yes, from, to, kind), EdgeIf(s', yes, c, d, kind), m, w)
  {
    hide Merged, Inv, AddEdge;
    if yes { EdgeMerged(s, s', m, w, from, to, c, d, kind); }
  }

  // What the head of a compound statement is, on both sides.
  ghost predicate Heads(st: State, rt: State, m: Merge) {
    Has(m, Head(rt)) && Last(m, Head(rt)) == Head(st)
  }

  /****** if ******/

  lemma IfThenMerged(st: State, rt: State, m: Merge, w: Setting, cond: Cond) returns (n: Merge)
    requires Merged(st, rt, m, w)
    ensures Inv(st) && Inv(rt) && Merged(IfThen(st, cond), IfThen(rt, cond), n, w) && Grown(m, n)
    ensures Heads(st, rt, n) && Stands(n, Settled(rt) + 1, Settled(st) + 1)
  {
    hide Merged, Inv, Ensure, NewBlock, AddEdge, Kept, Grown;
    MergedInv(st, rt, m, w);
    var o := EnsureMerged(st, rt, m, w);
    var s, s' := Ensure(st), Ensure(rt);
    MergedInv(s, s', o, w);
    var p := NewMerged(s, s', o, w);
    MergedInv(NewBlock(s), NewBlock(s'), p, w);
    n := NewMerged(NewBlock(s), NewBlock(s'), p, w);
    var u, u' := NewBlock(NewBlock(s)), NewBlock(NewBlock(s'));
    MergedInv(u, u', n, w);
    IfThenParts(st, rt, o, p, n, m);
    var t, t' := Settled(st), Settled(rt);
    TwoMore(st);
    var e, e' := u, u';
    if Allows(cond, true) {
      EdgeMerged(u, u', n, w, Head(st), t, Head(rt), t', IfTrue);
      e, e' := AddEdge(u, Head(st), t, IfTrue), AddEdge(u', Head(rt), t', IfTrue);
    }
    HereMerged(e, e', n, w, t, t');
  }

  lemma TwoMore(st: State)
    requires Inv(st)
    ensures var u := NewBlock(NewBlock(Ensure(st)));
      Inv(u) && Head(st) < |u.blocks| && Head(st) != EXIT && EXIT < Settled(st) && Target(|u.blocks|, Settled(st))
  {
    hide BlocksOk;
  }

  lemma IfThenParts(st: State, rt: State, o: Merge, p: Merge, n: Merge, m: Merge)
    requires Grown(m, o) && Kept(o, p) && Kept(p, n) && Heads(st, rt, o)
    requires Single(p, Settled(rt), Settled(st)) && Single(n, Settled(rt) + 1, Settled(st) + 1)
    ensures Grown(m, n) && Heads(st, rt, n)
    ensures Single(n, Settled(rt), Settled(st)) && Stands(n, Settled(rt), Settled(st))
      && Stands(n, Settled(rt) + 1, Settled(st) + 1)
  {
    KeptTrans(o, p, n);
    KeptGrown(o, n);
    GrownTrans(m, o, n);
  }

  // The edge to e, if any; compilation goes on there and c is closed.
  ghost function Entered(s: State, yes: bool, c: BlockId, e: BlockId): (r: State)
    requires Inv(s) && Edgy(s, c, e) && e != EXIT
  {
    Close(EdgeIf(s, yes, c, e, IfFalse).(current := Some(e)), c)
  }

  lemma EnteredMerged(s: State, s': State, n: Merge, w: Setting, yes: bool, c: BlockId, e: BlockId, c': BlockId,
      e': BlockId)
    requires Merged(s, s', n, w) && Inv(s) && Inv(s') && Edgy(s, c, e) && Edgy(s', c', e') && e != EXIT && e' != EXIT
      && c != e
    requires Has(n, c') && Last(n, c') == c && Stands(n, e', e) && s.blocks[e].succs == []
    ensures Merged(Entered(s, yes, c, e), Entered(s', yes, c', e'), n, w)
  {
    hide Merged, Inv, AddEdge;
    EdgeIfMerged(s, s', n, w, yes, c, e, c', e', IfFalse);
    var u, u' := EdgeIf(s, yes, c, e, IfFalse), EdgeIf(s', yes, c', e', IfFalse);
    SetMerged(u, u', n, w, e, e');
    OpenMerged(u.(current := Some(e)), u'.(current := Some(e')), n, w, u.open - {c}, u'.open - {c'});
  }

  // s, s': after the then branch.
  lemma IfElseMerged(st: State, rt: State, m: Merge, w: Setting, cond: Cond, s: State, s': State, hasElse: bool)
    returns (n: Merge)
    requires Inv(st) && Inv(rt) && Inv(s) && Inv(s') && Merged(s, s', m, w)
    requires Extends(IfThen(st, cond), s) && Extends(IfThen(rt, cond), s')
      && Waiting(st, cond, JumpTo(s, Settled(st) + 1, Normal))
    requires Heads(st, rt, m) && Stands(m, Settled(rt) + 1, Settled(st) + 1)
    ensures Merged(IfElse(st, cond, s, hasElse), IfElse(rt, cond, s', hasElse), n, w) && Grown(m, n)
  {
    hide Merged, Inv, Ensure, NewBlock, AddEdge, JumpTo, IfThen, Kept, Grown, BlocksOk, Instrs, Waiting, EdgeIf;
    var after, after' := Settled(st) + 1, Settled(rt) + 1;
    HeadProper(st);
    HeadProper(rt);
    JumpMerged(s, s', m, w, after, after', Normal);
    var s1, s1' := JumpTo(s, after, Normal), JumpTo(s', after', Normal);
    MergedInv(s1, s1', m, w);
    WaitingEmpty(st, cond, s1);
    KeptRefl(m);
    if hasElse {
      n := NewMerged(s1, s1', m, w);
      HeadsKept(st, rt, m, n);
      EnteredMerged(NewBlock(s1), NewBlock(s1'), n, w, Allows(cond, false), Head(st), |s1.blocks|, Head(rt),
        |s1'.blocks|);
      IfElseEnters(st, cond, s, true);
      IfElseEnters(rt, cond, s', true);
    } else {
      n := m;
      EnteredMerged(s1, s1', n, w, Allows(cond, false), Head(st), after, Head(rt), after');
      IfElseEnters(st, cond, s, false);
      IfElseEnters(rt, cond, s', false);
    }
  }

  lemma WaitingEmpty(st: State, cond: Cond, s1: State)
    requires Inv(st) && Waiting(st, cond, s1)
    ensures Settled(st) + 1 < |s1.blocks| && s1.blocks[Settled(st) + 1].succs == [] && Head(st) < |s1.blocks|
      && Head(st) != Settled(st) + 1
  {}

  lemma IfElseEnters(st: State, cond: Cond, s: State, hasElse: bool)
    requires Inv(st) && Inv(s) && Extends(IfThen(st, cond), s) && Target(|s.blocks|, Settled(st) + 1)
    requires var s1 := JumpTo(s, Settled(st) + 1, Normal);
      var s2, e := if hasElse then NewBlock(s1) else s1, if hasElse then |s1.blocks| else Settled(st) + 1;
      Edgy(s2, Head(st), e) && e != EXIT
    ensures var s1 := JumpTo(s, Settled(st) + 1, Normal);
      var s2, e := if hasElse then NewBlock(s1) else s1, if hasElse then |s1.blocks| else Settled(st) + 1;
      IfElse(st, cond, s, hasElse) == Entered(s2, Allows(cond, false), Head(st), e)
  {
    hide BlocksOk, JumpTo, IfThen, NewBlock, Inv, AddEdge;
  }

  lemma HeadProper(st: State)
    requires Inv(st)
    ensures Head(st) < Settled(st) && Head(st) != EXIT && EXIT < Settled(st)
  {
    hide BlocksOk;
  }

  lemma HeadsKept(st: State, rt: State, m: Merge, n: Merge)
    requires Heads(st, rt, m) && Kept(m, n)
    ensures Heads(st, rt, n)
  {}

  // v, v': after the else branch.
  lemma IfDoneMerged(st: State, rt: State, m: Merge, w: Setting, v: State, v': State)
    requires Inv(st) && Inv(rt) && Merged(v, v', m, w) && Inv(v) && Stands(m, Settled(rt) + 1, Settled(st) + 1)
    requires Settled(st) + 1 < |v.blocks| && Resumes(IfDone(st, v), Settled(st) + 1)
    ensures Inv(v') && Settled(rt) + 1 < |v'.blocks| && Merged(IfDone(st, v), IfDone(rt, v'), m, w)
  {
    hide Merged, Inv, JumpTo, BlocksOk;
    MergedInv(v, v', m, w);
    HeadProper(st);
    JumpMerged(v, v', m, w, Settled(st) + 1, Settled(rt) + 1, Normal);
    var j, j' := JumpTo(v, Settled(st) + 1, Normal), JumpTo(v', Settled(rt) + 1, Normal);
    SetMerged(j, j', m, w, Settled(st) + 1, Settled(rt) + 1);
  }

  /****** Loops ******/

  // The blocks of a loop correspond.
  ghost predicate LoopStands(st: State, rt: State, m: Merge, hasPost: bool) {
    && Stands(m, LoopHeader(rt), LoopHeader(st)) && Stands(m, LoopFirst(rt), LoopFirst(st))
    && Stands(m, LoopFirst(rt) + 1, LoopFirst(st) + 1) && Stands(m, LoopNext(rt, hasPost), LoopNext(st, hasPost))
  }

  lemma LoopStandsOn(st: State, rt: State, m: Merge, n: Merge, hasPost: bool)
    requires LoopStands(st, rt, m, hasPost) && Grown(m, n)
    ensures LoopStands(st, rt, n, hasPost)
  {
    hide Stands, Grown;
    StandsOn(m, n, LoopHeader(rt), LoopHeader(st));
    StandsOn(m, n, LoopFirst(rt), LoopFirst(st));
    StandsOn(m, n, LoopFirst(rt) + 1, LoopFirst(st) + 1);
    StandsOn(m, n, LoopNext(rt, hasPost), LoopNext(st, hasPost));
  }

  lemma LoopBlocksMerged(st: State, rt: State, m: Merge, w: Setting, hasPost: bool) returns (n: Merge)
    requires Merged(st, rt, m, w)
    ensures Inv(st) && Inv(rt) && Merged(LoopBlocks(st, hasPost), LoopBlocks(rt, hasPost), n, w) && Grown(m, n)
    ensures LoopStands(st, rt, n, hasPost) && Single(n, LoopHeader(rt), LoopHeader(st))
      && Single(n, LoopFirst(rt), LoopFirst(st))
  {
    hide Merged, Inv, Ensure, NewBlock, NewBlocks, JumpTo, Kept, Grown, SingleAt;
    MergedInv(st, rt, m, w);
    var o := NewMerged(st, rt, m, w);
    var a, a' := NewBlock(st), NewBlock(rt);
    MergedInv(a, a', o, w);
    var p := EnsureMerged(a, a', o, w);
    var e, e' := Ensure(a), Ensure(a');
    MergedInv(e, e', p, w);
    SingleKept(o, p, LoopHeader(rt), LoopHeader(st));
    HeaderProper(st);
    JumpMerged(e, e', p, w, LoopHeader(st), LoopHeader(rt), Normal);
    var j, j' := JumpTo(e, LoopHeader(st), Normal), JumpTo(e', LoopHeader(rt), Normal);
    var k := if hasPost then 3 else 2;
    n := NewBlocksMerged(j, j', p, w, k);
    KeptTrans(o, p, n);
    KeptGrown(o, n);
    GrownTrans(m, o, n);
    LoopParts(st, rt, p, n, hasPost, k);
  }

  lemma HeaderProper(st: State)
    requires Inv(st)
    ensures EXIT < LoopHeader(st) && Target(LoopFirst(st), LoopHeader(st)) && LoopHeader(st) < LoopFirst(st)
  {
    hide BlocksOk;
  }

  lemma LoopParts(st: State, rt: State, p: Merge, n: Merge, hasPost: bool, k: nat)
    requires Single(p, LoopHeader(rt), LoopHeader(st)) && Kept(p, n) && k == if hasPost then 3 else 2
    requires forall i :: 0 <= i < k ==> SingleAt(n, LoopFirst(rt), LoopFirst(st), i)
    ensures LoopStands(st, rt, n, hasPost) && Single(n, LoopHeader(rt), LoopHeader(st))
      && Single(n, LoopFirst(rt), LoopFirst(st))
  {
    hide Kept, Grown;
    SingleKept(p, n, LoopHeader(rt), LoopHeader(st));
    assert SingleAt(n, LoopFirst(rt), LoopFirst(st), 0) && SingleAt(n, LoopFirst(rt), LoopFirst(st), 1);
    assert hasPost ==> SingleAt(n, LoopFirst(rt), LoopFirst(st), 2);
  }

  lemma TestMerged(s: State, s': State, n: Merge, w: Setting, cond: Cond, h: BlockId, b: BlockId, h': BlockId,
      b': BlockId)
    requires Merged(s, s', n, w) && Has(n, h') && Last(n, h') == h && Stands(n, b', b) && Stands(n, b' + 1, b + 1)
    requires Inv(s) && Inv(s') && Edgy(s, h, b) && Edgy(s, h, b + 1) && Edgy(s', h', b') && Edgy(s', h', b' + 1)
    ensures Merged(TestAdded(s, cond, h, b), TestAdded(s', cond, h', b'), n, w)
  {
    hide Merged, Inv, EdgeIf, Stands;
    EdgeIfMerged(s, s', n, w, Allows(cond, true), h, b, h', b', IfTrue);
    var e, e' := EdgeIf(s, Allows(cond, true), h, b, IfTrue), EdgeIf(s', Allows(cond, true), h', b', IfTrue);
    EdgeIfMerged(e, e', n, w, Allows(cond, false), h, b + 1, h', b' + 1, IfFalse);
  }

  // The edges of a condition at h, to b and to the block after it.
  ghost function TestAdded(s: State, cond: Cond, h: BlockId, b: BlockId): (r: State)
    requires Inv(s) && Edgy(s, h, b) && Edgy(s, h, b + 1)
    ensures Inv(r)
  {
    EdgeIf(EdgeIf(s, Allows(cond, true), h, b, IfTrue), Allows(cond, false), h, b + 1, IfFalse)
  }

  lemma LoopEdgesMerged(st: State, rt: State, n: Merge, w: Setting, test: Option<Cond>, hasPost: bool)
    requires Inv(st) && Inv(rt) && Merged(LoopBlocks(st, hasPost), LoopBlocks(rt, hasPost), n, w)
    requires LoopStands(st, rt, n, hasPost) && Single(n, LoopHeader(rt), LoopHeader(st))
    ensures Merged(LoopEdges(st, test, hasPost), LoopEdges(rt, test, hasPost), n, w)
  {
    hide Merged, Inv, LoopBlocks, AddEdge, Stands;
    HeaderProper(st);
    HeaderProper(rt);
    var s, s', h, b, h', b' := LoopBlocks(st, hasPost), LoopBlocks(rt, hasPost), LoopHeader(st), LoopFirst(st),
      LoopHeader(rt), LoopFirst(rt);
    LoopTargets(st, hasPost);
    LoopTargets(rt, hasPost);
    if test.None? {
      EdgeMerged(s, s', n, w, h, b, h', b', Normal);
    } else {
      TestMerged(s, s', n, w, test.value, h, b, h', b');
      assert LoopEdges(st, test, hasPost) == TestAdded(s, test.value, h, b) by { LoopTest(st, test.value, hasPost); }
      assert LoopEdges(rt, test, hasPost) == TestAdded(s', test.value, h', b') by { LoopTest(rt, test.value, hasPost); }
    }
  }

  lemma LoopTargets(st: State, hasPost: bool)
    requires Inv(st)
    ensures var s, h, b := LoopBlocks(st, hasPost), LoopHeader(st), LoopFirst(st); Edgy(s, h, b) && Edgy(s, h, b + 1)
  {
    hide BlocksOk, LoopBlocks;
  }

  lemma LoopTest(st: State, cond: Cond, hasPost: bool)
    requires Inv(st) && Edgy(LoopBlocks(st, hasPost), LoopHeader(st), LoopFirst(st))
      && Edgy(LoopBlocks(st, hasPost), LoopHeader(st), LoopFirst(st) + 1)
    ensures LoopEdges(st, Some(cond), hasPost) ==
      TestAdded(LoopBlocks(st, hasPost), cond, LoopHeader(st), LoopFirst(st))
  {
    hide BlocksOk, Inv, LoopBlocks, AddEdge;
  }

  lemma LoopBodyMerged(st: State, rt: State, m: Merge, w: Setting, test: Option<Cond>, hasPost: bool, l: Label)
    returns (n: Merge)
    requires Merged(st, rt, m, w)
    ensures Inv(st) && Inv(rt) && Merged(LoopBody(st, test, hasPost, l), LoopBody(rt, test, hasPost, l), n, w)
      && Grown(m, n)
    ensures LoopStands(st, rt, n, hasPost)
  {
    hide Merged, Inv, LoopBlocks, LoopEdges, Grown;
    n := LoopBlocksMerged(st, rt, m, w, hasPost);
    LoopEdgesMerged(st, rt, n, w, test, hasPost);
    var s, s' := LoopEdges(st, test, hasPost), LoopEdges(rt, test, hasPost);
    MergedInv(s, s', n, w);
    HeaderProper(st);
    HereMerged(s, s', n, w, LoopFirst(st), LoopFirst(rt));
    var b, b' := s.(current := Some(LoopFirst(st))), s'.(current := Some(LoopFirst(rt)));
    OpenMerged(b, b', n, w, s.open - {LoopHeader(st)}, s'.open - {LoopHeader(rt)});
    var c, c' := b.(open := s.open - {LoopHeader(st)}), b'.(open := s'.open - {LoopHeader(rt)});
    var fs, gs := LoopBody(st, test, hasPost, l).frames, LoopBody(rt, test, hasPost, l).frames;
    LoopFrames(st, rt, m, n, w, hasPost, l);
    assert LoopBody(st, test, hasPost, l) == c.(frames := fs) && LoopBody(rt, test, hasPost, l) == c'.(frames := gs);
    FramesMerged(c, c', n, w, fs, gs);
  }

  lemma LoopFrames(st: State, rt: State, m: Merge, n: Merge, w: Setting, hasPost: bool, l: Label)
    requires Merged(st, rt, m, w) && Grown(m, n) && LoopStands(st, rt, n, hasPost)
    ensures SameFrames(st.frames + [Frame(l, true, LoopFirst(st) + 1, LoopNext(st, hasPost))],
      rt.frames + [Frame(l, true, LoopFirst(rt) + 1, LoopNext(rt, hasPost))], n)
  {
    hide BlocksOk, MergesTo, CleanAll, Stands, SameLabels;
    FramesOn(st.frames, rt.frames, m, n);
  }

  // s, s': after the body.
  lemma LoopPostMerged(st: State, rt: State, m: Merge, w: Setting, post: Option<Simple>, s: State, s': State)
    returns (n: Merge)
    requires w.apart ==> ApartInit(post, w.trust)
    requires Inv(st) && Inv(rt) && Merged(s, s', m, w) && Inv(s) && Inv(s') && LoopStands(st, rt, m, post.Some?)
    requires LoopSize(st, post.Some?) <= |s.blocks| && LoopSize(rt, post.Some?) <= |s'.blocks|
    requires post.Some? ==>
      Base(PostStart(st, s)) && Untouched(JumpTo(s, LoopNext(st, true), Normal), LoopNext(st, true))
    ensures Merged(LoopPost(st, post, s, w.trust), LoopPost(rt, post, s', STRUCTURAL), n, w) && Grown(m, n)
  {
    hide Merged, Inv, JumpTo, SimpleStep, Ensure, Grown, BlocksOk;
    HeaderProper(st);
    var next, next' := LoopNext(st, post.Some?), LoopNext(rt, post.Some?);
    JumpMerged(s, s', m, w, next, next', if post.Some? then Normal else LoopBack);
    n := m;
    KeptRefl(m);
    if post.Some? {
      var j, j' := JumpTo(s, next, Normal), JumpTo(s', next', Normal);
      SetMerged(j, j', m, w, next, next');
      var q, q' := j.(current := Some(next)), j'.(current := Some(next'));
      MergedInv(q, q', m, w);
      var o := SimpleMerged(q, q', m, w, post.value);
      var r, r' := SimpleStep(q, post.value, w.trust), SimpleStep(q', post.value, STRUCTURAL);
      MergedInv(r, r', o, w);
      n := EnsureMerged(r, r', o, w);
      GrownTrans(m, o, n);
      LoopStandsOn(st, rt, m, n, true);
      MergedInv(Ensure(r), Ensure(r'), n, w);
      JumpMerged(Ensure(r), Ensure(r'), n, w, LoopHeader(st), LoopHeader(rt), LoopBack);
    }
  }

  lemma LoopDoneMerged(st: State, rt: State, m: Merge, n: Merge, w: Setting, u: State, u': State, hasPost: bool)
    requires Merged(st, rt, m, w) && Grown(m, n) && Merged(u, u', n, w) && LoopStands(st, rt, n, hasPost)
    requires Inv(st) && Inv(rt) && Inv(u) && Inv(u') && LoopFirst(st) + 1 < |u.blocks|
      && LoopFirst(rt) + 1 < |u'.blocks|
    requires st.frames <= u.frames && rt.frames <= u'.frames && Untouched(u, LoopFirst(st) + 1)
    ensures Merged(LoopDone(st, u), LoopDone(rt, u'), n, w)
  {
    hide Merged, Inv, Grown, BlocksOk;
    HeaderProper(st);
    SetMerged(u, u', n, w, LoopFirst(st) + 1, LoopFirst(rt) + 1);
    var v, v' := u.(current := Some(LoopFirst(st) + 1)), u'.(current := Some(LoopFirst(rt) + 1));
    FramesAndLabels(st, rt, m, w);
    FramesOn(st.frames, rt.frames, m, n);
    assert LoopDone(st, u) == v.(frames := st.frames) && LoopDone(rt, u') == v'.(frames := rt.frames);
    FramesMerged(v, v', n, w, st.frames, rt.frames);
  }

  /****** switch and select ******/

  // Head, the block after and the first n clause blocks correspond.
  ghost predicate MultiStands(st: State, rt: State, m: Merge, n: nat) {
    && Heads(st, rt, m) && Stands(m, Settled(rt), Settled(st))
    && forall i: nat :: i < n ==> Stands(m, SwitchBlock(rt, i), SwitchBlock(st, i))
  }

  lemma MultiFrames(st: State, rt: State, m: Merge, n: Merge, w: Setting, l: Label)
    requires Merged(st, rt, m, w) && Grown(m, n) && Stands(n, Settled(rt), Settled(st))
    ensures SameFrames(st.frames + [Frame(l, false, Settled(st), 0)], rt.frames + [Frame(l, false, Settled(rt), 0)], n)
  {
    hide BlocksOk, MergesTo, CleanAll, Stands, SameLabels;
    FramesOn(st.frames, rt.frames, m, n);
  }

  // Head and block after allocated, on both sides.
  lemma MultiHead(st: State, rt: State, m: Merge, w: Setting) returns (n: Merge)
    requires Merged(st, rt, m, w)
    ensures Inv(st) && Inv(rt) && Merged(NewBlock(Ensure(st)), NewBlock(Ensure(rt)), n, w) && Grown(m, n)
    ensures Heads(st, rt, n) && Stands(n, Settled(rt), Settled(st))
  {
    hide Merged, Inv, Ensure, NewBlock, Kept, Grown;
    MergedInv(st, rt, m, w);
    var o := EnsureMerged(st, rt, m, w);
    MergedInv(Ensure(st), Ensure(rt), o, w);
    n := NewMerged(Ensure(st), Ensure(rt), o, w);
    GrownTrans(m, o, n);
    HeadsKept(st, rt, o, n);
  }

  lemma SwitchBlocksMerged(st: State, rt: State, m: Merge, w: Setting, k: nat) returns (n: Merge)
    requires Merged(st, rt, m, w)
    ensures Inv(st) && Inv(rt) && Merged(NewBlocks(NewBlock(Ensure(st)), k), NewBlocks(NewBlock(Ensure(rt)), k), n, w)
    ensures Grown(m, n) && MultiStands(st, rt, n, k)
  {
    hide Merged, Inv, Ensure, NewBlock, NewBlocks, Kept, Grown, SingleAt, Stands;
    var o := MultiHead(st, rt, m, w);
    n := NewBlocksMerged(NewBlock(Ensure(st)), NewBlock(Ensure(rt)), o, w, k);
    GrownTrans(m, o, n);
    HeadsKept(st, rt, o, n);
    StandsOn(o, n, Settled(rt), Settled(st));
    forall i: nat | i < k ensures Stands(n, SwitchBlock(rt, i), SwitchBlock(st, i)) {
      assert SingleAt(n, Settled(rt) + 1, Settled(st) + 1, i);
      AtStands(n, Settled(rt) + 1, Settled(st) + 1, i);
    }
  }

  lemma AtStands(m: Merge, c: BlockId, t: BlockId, i: nat)
    requires SingleAt(m, c, t, i)
    ensures Stands(m, c + i, t + i)
  {}

  lemma SwitchStartMerged(st: State, rt: State, m: Merge, w: Setting, clauses: seq<Clause>, l: Label) returns (n: Merge)
    requires Merged(st, rt, m, w)
    ensures Inv(st) && Inv(rt) && Merged(SwitchStart(st, clauses, l), SwitchStart(rt, clauses, l), n, w)
    ensures Grown(m, n) && MultiStands(st, rt, n, |clauses|)
  {
    hide Merged, Inv, Ensure, NewBlock, NewBlocks, AddEdge, Grown, HasDefault;
    n := SwitchBlocksMerged(st, rt, m, w, |clauses|);
    HeadProper(st);
    var s, s' := NewBlocks(NewBlock(Ensure(st)), |clauses|), NewBlocks(NewBlock(Ensure(rt)), |clauses|);
    var u, u' := s, s';
    if !HasDefault(clauses) {
      EdgeMerged(s, s', n, w, Head(st), Settled(st), Head(rt), Settled(rt), Normal);
      u, u' := AddEdge(s, Head(st), Settled(st), Normal), AddEdge(s', Head(rt), Settled(rt), Normal);
    }
    NowhereMerged(u, u', n, w);
    var v, v' := u.(current := None), u'.(current := None);
    MultiFrames(st, rt, m, n, w, l);
    var fs, gs := SwitchStart(st, clauses, l).frames, SwitchStart(rt, clauses, l).frames;
    assert SwitchStart(st, clauses, l) == v.(frames := fs) && SwitchStart(rt, clauses, l) == v'.(frames := gs);
    FramesMerged(v, v', n, w, fs, gs);
  }

  lemma SelectStartMerged(st: State, rt: State, m: Merge, w: Setting, l: Label) returns (n: Merge)
    requires Merged(st, rt, m, w)
    ensures Inv(st) && Inv(rt) && Merged(SelectStart(st, l), SelectStart(rt, l), n, w)
    ensures Grown(m, n) && MultiStands(st, rt, n, 0)
  {
    hide Merged, Inv, Ensure, NewBlock, Grown;
    n := MultiHead(st, rt, m, w);
    var u, u' := NewBlock(Ensure(st)), NewBlock(Ensure(rt));
    NowhereMerged(u, u', n, w);
    var v, v' := u.(current := None), u'.(current := None);
    MultiFrames(st, rt, m, n, w, l);
    var fs, gs := SelectStart(st, l).frames, SelectStart(rt, l).frames;
    assert SelectStart(st, l) == v.(frames := fs) && SelectStart(rt, l) == v'.(frames := gs);
    FramesMerged(v, v', n, w, fs, gs);
  }

  // Entering a clause from the head c at the unsplit block b.
  lemma ClauseMerged(s: State, s': State, m: Merge, w: Setting, c: BlockId, b: BlockId, c': BlockId, b': BlockId)
    requires Merged(s, s', m, w) && Inv(s) && c < |s.blocks| && c != EXIT && EXIT < b < |s.blocks| && b != c
      && s.blocks[b].succs == []
    requires Has(m, c') && Last(m, c') == c && Stands(m, b', b)
    ensures Inv(s') && c' < |s'.blocks| && c' != EXIT && Target(|s'.blocks|, b')
    ensures Merged(AddEdge(s, c, b, EdgeKind.Case).(current := Some(b)),
      AddEdge(s', c', b', EdgeKind.Case).(current := Some(b')), m, w)
  {
    hide Merged, Inv;
    MergedInv(s, s', m, w);
    EdgeMerged(s, s', m, w, c, b, c', b', EdgeKind.Case);
    SetMerged(AddEdge(s, c, b, EdgeKind.Case), AddEdge(s', c', b', EdgeKind.Case), m, w, b, b');
  }

  lemma MultiDoneMerged(st: State, rt: State, m: Merge, n: Merge, w: Setting, s: State, s': State)
    requires Merged(st, rt, m, w) && Grown(m, n) && Merged(s, s', n, w) && Stands(n, Settled(rt), Settled(st))
    requires Inv(st) && Inv(rt) && Inv(s) && Inv(s') && Settled(st) < |s.blocks| && Settled(rt) < |s'.blocks|
    requires st.frames <= s.frames && rt.frames <= s'.frames && s.blocks[Settled(st)].succs == []
    ensures Merged(MultiDone(st, s), MultiDone(rt, s'), n, w)
  {
    hide Merged, Inv, Grown, BlocksOk;
    HeadProper(st);
    SetMerged(s, s', n, w, Settled(st), Settled(rt));
    var v, v' := s.(current := Some(Settled(st))), s'.(current := Some(Settled(rt)));
    FramesAndLabels(st, rt, m, w);
    FramesOn(st.frames, rt.frames, m, n);
    var z, z' := v.(frames := st.frames), v'.(frames := rt.frames);
    DoneFrames(st, s);
    DoneFrames(rt, s');
    FramesMerged(v, v', n, w, st.frames, rt.frames);
    OpenMerged(z, z', n, w, z.open - {Head(st)}, z'.open - {Head(rt)});
  }

  lemma DoneFrames(st: State, s: State)
    requires Inv(st) && Inv(s) && Settled(st) < |s.blocks| && st.frames <= s.frames
    ensures Inv(s.(current := Some(Settled(st))).(frames := st.frames))
  {
    hide BlocksOk;
    HeadProper(st);
  }

  /****** What is known about the trusted side ******/

  lemma {:induction false} CaseEdgesNoStops(c: BlockId, blocks: seq<BlockId>)
    ensures NoStops(CaseEdges(c, blocks))
    decreases |blocks|
  {
    if blocks != [] { CaseEdgesNoStops(c, blocks[..|blocks| - 1]); }
  }

  lemma {:induction false} LabelsPrefix(clauses: seq<Clause>, i: nat, n: nat)
    requires i <= n <= |clauses|
    ensures LabelsOfClauses(clauses, i) <= LabelsOfClauses(clauses, n)
    decreases n
  {
    if i < n { LabelsPrefix(clauses, i, n - 1); }
  }

  // The labels of the first i clauses, and what is left.
  lemma LabelsSplit(clauses: seq<Clause>, i: nat) returns (ms: seq<Label>)
    requires i <= |clauses|
    ensures LabelsOfClauses(clauses, i) + ms == LabelsOfClauses(clauses, |clauses|)
  {
    LabelsPrefix(clauses, i, |clauses|);
    ms := LabelsOfClauses(clauses, |clauses|)[|LabelsOfClauses(clauses, i)|..];
  }

  ghost predicate HeadOpen(st: State, s: State)
    requires Inv(st)
  {
    && Head(st) < |s.blocks| && Settled(st) < |s.blocks| && s.blocks[Settled(st)].succs == []
    && NoStops(s.blocks[Head(st)].succs)
  }

  lemma SwitchHead(st: State, clauses: seq<Clause>, i: nat, l: Label, trust: Instr -> bool)
    requires i <= |clauses| && Ready(st, LabelsOfClauses(clauses, |clauses|))
    ensures HeadOpen(st, SwitchAt(st, clauses, i, l, trust))
    ensures forall j :: i <= j < |clauses| ==> Untouched(SwitchAt(st, clauses, i, l, trust), SwitchBlock(st, j))
    ensures forall j :: 0 <= j < i ==> Ready(SwitchCase(st, clauses, j, l, trust), LabelsOfList(clauses[j].body))
  {
    hide BlocksOk, Step, NoRepeats, SwitchCase, SwitchAt, Live, OpenInRange, CompileCase, Untouched, CaseEdges, Instrs;
    var ms := LabelsSplit(clauses, i);
    forall j | 0 <= j < i && Ready(SwitchCase(st, clauses, j, l, trust), LabelsOfList(clauses[j].body))
      ensures SwitchBodyDone(st, clauses, j, l, trust)
    {
      CaseSteps(SwitchCase(st, clauses, j, l, trust), clauses[j].body, trust);
    }
    SwitchSteps(st, clauses, i, l, trust, ms);
    CaseEdgesNoStops(Head(st), SwitchBlocks(st, i));
    BetweenOpen(st, SwitchAt(st, clauses, i, l, trust), LabelsOfClauses(clauses, i),
      NoMatch(st, clauses) + CaseEdges(Head(st), SwitchBlocks(st, i)));
    forall j | 0 <= j < i ensures Ready(SwitchCase(st, clauses, j, l, trust), LabelsOfList(clauses[j].body)) {
      assert SwitchClauseShape(st, clauses, j, l, trust, SwitchAt(st, clauses, i, l, trust));
    }
  }

  lemma BetweenOpen(st: State, s: State, ls: seq<Label>, edges: seq<Edge>)
    requires Between(st, s, ls, edges) && NoStops(edges)
    ensures HeadOpen(st, s)
  {
    hide Base, Step, Instrs;
  }

  lemma SelectHead(st: State, clauses: seq<Clause>, i: nat, l: Label, trust: Instr -> bool)
    requires i <= |clauses| && Ready(st, LabelsOfClauses(clauses, |clauses|))
    ensures HeadOpen(st, SelectAt(st, clauses, i, l, trust))
    ensures forall j :: 0 <= j < i ==> Ready(SelectCase(st, clauses, j, l, trust), LabelsOfList(clauses[j].body))
  {
    hide BlocksOk, Step, NoRepeats, SelectCase, SelectAt, Live, OpenInRange, Untouched, CaseEdges, Instrs, SelectBlocks;
    var ms := LabelsSplit(clauses, i);
    forall j | 0 <= j < i && Ready(SelectCase(st, clauses, j, l, trust), LabelsOfList(clauses[j].body))
      ensures SelectBodyDone(st, clauses, j, l, trust)
    {
      ListSteps(SelectCase(st, clauses, j, l, trust), clauses[j].body, trust);
    }
    SelectSteps(st, clauses, i, l, trust, ms);
    CaseEdgesNoStops(Head(st), SelectBlocks(st, clauses, i, l, trust));
    BetweenOpen(st, SelectAt(st, clauses, i, l, trust), LabelsOfClauses(clauses, i),
      CaseEdges(Head(st), SelectBlocks(st, clauses, i, l, trust)));
    forall j | 0 <= j < i ensures Ready(SelectCase(st, clauses, j, l, trust), LabelsOfList(clauses[j].body)) {
      assert SelectClauseShape(st, clauses, j, l, trust, SelectAt(st, clauses, i, l, trust));
    }
  }

  /****** Whole statements ******/

  predicate IsLeaf(s: Stmt) {
    match s
    case Block(_) => false
    case Labeled(_, _) => false
    case If(_, _, _, _) => false
    case For(_, _, _, _) => false
    case Range(_) => false
    case Switch(_, _) => false
    case Select(_) => false
    case _ => true
  }

  lemma LeafMerged(st: State, rt: State, m: Merge, s: Stmt, l: Label, w: Setting) returns (n: Merge)
    requires IsLeaf(s) && Merged(st, rt, m, w) && Ready(st, []) && (w.apart ==> Apart(s, w.trust))
    ensures Inv(st) && Inv(rt) && Merged(Compile(st, s, l, w.trust), Compile(rt, s, l, STRUCTURAL), n, w) && Grown(m, n)
  {
    hide Merged, BlocksOk, Step, NoRepeats, Branch, SpecsStep, Building.Emit, Record, JumpTo, SimpleStep, Live,
      OpenInRange, Grown, Kept, Stands,
      ResolveBreak, ResolveContinue, Untouched;
    MergedInv(st, rt, m, w);
    ReadyBase(st, []);
    match s
    case Exec(x) => n := SimpleMerged(st, rt, m, w, x);
    case VarDecl(specs) => n := SpecsMerged(st, rt, m, w, specs);
    case Opaque(id) => n := EmitMerged(st, rt, m, w, id);
    case GoCall(id, call) => n := RecordedMerged(st, rt, m, w, id, call, true);
    case DeferCall(id, call) => n := RecordedMerged(st, rt, m, w, id, call, false);
    case Empty => n := m; KeptRefl(m);
    case ReturnStmt(id, calls) => n := ReturnMerged(st, rt, m, w, id, calls);
    case BreakStmt(k) => n := JumpingMerged(st, rt, m, s, l, w);
    case ContinueStmt(k) => n := JumpingMerged(st, rt, m, s, l, w);
    case GotoStmt(k) => n := JumpingMerged(st, rt, m, s, l, w);
    case FallthroughStmt(id) => n := EmitMerged(st, rt, m, w, id);
  }

  lemma JumpingMerged(st: State, rt: State, m: Merge, s: Stmt, l: Label, w: Setting) returns (n: Merge)
    requires s.BreakStmt? || s.ContinueStmt? || s.GotoStmt?
    requires Merged(st, rt, m, w)
    ensures Inv(st) && Inv(rt) && Merged(Compile(st, s, l, w.trust), Compile(rt, s, l, STRUCTURAL), n, w) && Grown(m, n)
  {
    hide Merged, BlocksOk, Branch, Grown, Stands, ResolveBreak, ResolveContinue;
    MergedInv(st, rt, m, w);
    FramesAndLabels(st, rt, m, w);
    match s
    case BreakStmt(k) =>
      BreakMerged(st.frames, rt.frames, m, k);
      n := BranchMerged(st, rt, m, w, ResolveBreak(st.frames, k), ResolveBreak(rt.frames, k), EdgeKind.Break);
    case ContinueStmt(k) =>
      ContinueMerged(st.frames, rt.frames, m, k);
      n := BranchMerged(st, rt, m, w, ResolveContinue(st.frames, k), ResolveContinue(rt.frames, k), EdgeKind.Continue);
    case GotoStmt(k) =>
      n := BranchMerged(st, rt, m, w, if k in st.labels then Some(st.labels[k]) else None,
        if k in rt.labels then Some(rt.labels[k]) else None, EdgeKind.Goto);
  }

  lemma {:induction false} CompileMerged(st: State, rt: State, m: Merge, s: Stmt, l: Label, w: Setting)
    returns (n: Merge)
    requires Merged(st, rt, m, w) && Ready(st, Labels(s)) && (w.apart ==> Apart(s, w.trust))
    ensures Inv(st) && Inv(rt) && Merged(Compile(st, s, l, w.trust), Compile(rt, s, l, STRUCTURAL), n, w) && Grown(m, n)
    decreases s, 1
  {
    hide Merged, BlocksOk, Step, NoRepeats, InitStep, CompileIf, CompileLoop, CompileSwitch, CompileSelect, CompileList,
      EnterLabel,
      Live, OpenInRange, Grown, Untouched, ApartInit, ApartSimple, ApartAll, LabelsOfList, LabelsOfClauses, SimpleStep,
      SpecsStep, Building.Emit, Record, RecordAll, Branch, JumpTo;
    MergedInv(st, rt, m, w);
    ReadyBase(st, Labels(s));
    match s
    case Block(list) => n := ListMerged(st, rt, m, list, w);
    case Labeled(k, body) =>
      EnterMerged(st, rt, m, w, k, Labels(body));
      EnterLabelSteps(st, k, Labels(body));
      n := CompileMerged(EnterLabel(st, k), EnterLabel(rt, k), m, body, k, w);
    case If(init, cond, thn, els) =>
      var o := InitReady(st, rt, m, w, init, Labels(s));
      n := IfMerged(InitStep(st, init, w.trust), InitStep(rt, init, STRUCTURAL), o, s, w);
      GrownTrans(m, o, n);
    case For(init, test, post, loop) =>
      var o := InitReady(st, rt, m, w, init, Labels(s));
      n := LoopMerged(InitStep(st, init, w.trust), InitStep(rt, init, STRUCTURAL), o, test, post, loop, l, w);
      GrownTrans(m, o, n);
    case Range(loop) => n := LoopMerged(st, rt, m, Some(Unknown), None, loop, l, w) by { NoInit(w.trust); }
    case Switch(init, clauses) =>
      var o := InitReady(st, rt, m, w, init, Labels(s));
      n := SwitchMerged(InitStep(st, init, w.trust), InitStep(rt, init, STRUCTURAL), o, clauses, l, w);
      GrownTrans(m, o, n);
    case Select(clauses) => n := SelectMerged(st, rt, m, clauses, l, w);
    case _ => n := LeafMerged(st, rt, m, s, l, w);
  }

  lemma InitReady(st: State, rt: State, m: Merge, w: Setting, init: Option<Simple>, ls: seq<Label>) returns (o: Merge)
    requires Merged(st, rt, m, w) && Ready(st, ls) && (w.apart ==> ApartInit(init, w.trust))
    ensures Inv(st) && Inv(rt) && Merged(InitStep(st, init, w.trust), InitStep(rt, init, STRUCTURAL), o, w)
      && Grown(m, o)
    ensures Ready(InitStep(st, init, w.trust), ls)
  {
    hide Merged, BlocksOk, Step, NoRepeats, InitStep, Live, OpenInRange, Grown, Untouched, ApartInit;
    MergedInv(st, rt, m, w);
    ReadyBase(st, ls);
    o := InitMerged(st, rt, m, w, init);
    InitCompiled(st, init, ls, w.trust);
  }

  lemma NoInit(trust: Instr -> bool)
    ensures ApartInit(None, trust)
  {}

  lemma RecordedMerged(st: State, rt: State, m: Merge, w: Setting, id: Instr, call: CallId, async: bool)
    returns (n: Merge)
    requires Merged(st, rt, m, w) && (w.apart ==> !w.trust(id))
    ensures Inv(st) && Inv(rt) && Grown(m, n)
    ensures Merged(Building.Emit(Record(st, call, async), id), Building.Emit(Record(rt, call, async), id), n, w)
  {
    hide Merged, Inv, Record, Building.Emit, Grown;
    MergedInv(st, rt, m, w);
    var o := RecordMerged(st, rt, m, w, call, async);
    n := EmitMerged(Record(st, call, async), Record(rt, call, async), o, w, id);
    GrownTrans(m, o, n);
  }

  lemma ReturnMerged(st: State, rt: State, m: Merge, w: Setting, id: Instr, calls: seq<CallId>) returns (n: Merge)
    requires Merged(st, rt, m, w) && (w.apart ==> !w.trust(id))
    ensures Inv(st) && Inv(rt) && Grown(m, n)
    ensures Target(|Building.Emit(RecordAll(st, calls), id).blocks|, EXIT)
      && Target(|Building.Emit(RecordAll(rt, calls), id).blocks|, EXIT)
    ensures Merged(JumpTo(Building.Emit(RecordAll(st, calls), id), EXIT, Return),
      JumpTo(Building.Emit(RecordAll(rt, calls), id), EXIT, Return), n, w)
  {
    hide Merged, Inv, RecordAll, Building.Emit, Grown, JumpTo;
    MergedInv(st, rt, m, w);
    var o := RecordAllMerged(st, rt, m, w, calls);
    n := EmitMerged(RecordAll(st, calls), RecordAll(rt, calls), o, w, id);
    GrownTrans(m, o, n);
    var s, s' := Building.Emit(RecordAll(st, calls), id), Building.Emit(RecordAll(rt, calls), id);
    ExitStands(s, s', n, w);
    JumpMerged(s, s', n, w, EXIT, EXIT, Return);
  }

  lemma {:induction false} ListMerged(st: State, rt: State, m: Merge, list: seq<Stmt>, w: Setting) returns (n: Merge)
    requires Merged(st, rt, m, w) && Ready(st, LabelsOfList(list)) && (w.apart ==> ApartAll(list, w.trust))
    ensures Inv(st) && Inv(rt) && Merged(CompileList(st, list, w.trust), CompileList(rt, list, STRUCTURAL), n, w)
      && Grown(m, n)
    decreases list, 0
  {
    hide Merged, BlocksOk, Step, NoRepeats, Compile, Live, OpenInRange, Grown, Untouched;
    MergedInv(st, rt, m, w);
    if list == [] {
      n := m;
      KeptRefl(m);
    } else {
      var ls, ms := Labels(list[0]), LabelsOfList(list[1..]);
      ReadyFirst(st, ls, ms);
      CompileSteps(st, list[0], NO_LABEL, w.trust);
      var o := CompileMerged(st, rt, m, list[0], NO_LABEL, w);
      var s, s' := Compile(st, list[0], NO_LABEL, w.trust), Compile(rt, list[0], NO_LABEL, STRUCTURAL);
      ReadyNext(st, s, ls, ms);
      n := ListMerged(s, s', o, list[1..], w);
      GrownTrans(m, o, n);
    }
  }

  lemma {:induction false} CaseMerged(st: State, rt: State, m: Merge, body: seq<Stmt>, w: Setting) returns (n: Merge)
    requires Merged(st, rt, m, w) && Ready(st, LabelsOfList(body)) && (w.apart ==> ApartAll(body, w.trust))
    ensures Inv(st) && Inv(rt) && Grown(m, n)
    ensures Merged(CompileCase(st, body, w.trust).0, CompileCase(rt, body, STRUCTURAL).0, n, w)
    ensures CompileCase(st, body, w.trust).1 == CompileCase(rt, body, STRUCTURAL).1
    decreases body, 0
  {
    hide Merged, BlocksOk, Step, NoRepeats, Compile, Live, OpenInRange, Grown, Untouched;
    MergedInv(st, rt, m, w);
    if body == [] || body[0].FallthroughStmt? {
      n := m;
      KeptRefl(m);
    } else {
      var ls, ms := Labels(body[0]), LabelsOfList(body[1..]);
      ReadyFirst(st, ls, ms);
      CompileSteps(st, body[0], NO_LABEL, w.trust);
      var o := CompileMerged(st, rt, m, body[0], NO_LABEL, w);
      var s, s' := Compile(st, body[0], NO_LABEL, w.trust), Compile(rt, body[0], NO_LABEL, STRUCTURAL);
      ReadyNext(st, s, ls, ms);
      n := CaseMerged(s, s', o, body[1..], w);
      GrownTrans(m, o, n);
    }
  }

  lemma {:induction false} IfMerged(st: State, rt: State, m: Merge, s: Stmt, w: Setting) returns (n: Merge)
    requires s.If? && Merged(st, rt, m, w) && Ready(st, Labels(s)) && (w.apart ==> Apart(s, w.trust))
    ensures Inv(st) && Inv(rt) && Merged(CompileIf(st, s, w.trust), CompileIf(rt, s, STRUCTURAL), n, w) && Grown(m, n)
    decreases s, 0, 1
  {
    hide Merged, BlocksOk, Step, NoRepeats, Compile, CompileList, IfThen, IfElse, Live, OpenInRange, Grown, Untouched,
      Waiting, Heads, Stands, IfDone, JumpTo;
    MergedInv(st, rt, m, w);
    var ls := LabelsOfList(s.thn);
    var ms := if s.els.Some? then Labels(s.els.value) else [];
    assert Labels(s) == ls + ms;
    ReadyFirst(st, ls, ms);
    var o := IfThenMerged(st, rt, m, w, s.cond);
    IfThenSteps(st, s.cond, ls);
    var t, t' := IfThen(st, s.cond), IfThen(rt, s.cond);
    var p := ListMerged(t, t', o, s.thn, w);
    GrownTrans(m, o, p);
    ListSteps(t, s.thn, w.trust);
    var s2, s2' := CompileList(t, s.thn, w.trust), CompileList(t', s.thn, STRUCTURAL);
    MergedInv(s2, s2', p, w);
    StandsOn(o, p, Settled(rt) + 1, Settled(st) + 1);
    ThenMerged(st, rt, o, p, w, s.cond, ls, s2, s2');
    var q := IfElseMerged(st, rt, p, w, s.cond, s2, s2', s.els.Some?);
    GrownTrans(m, p, q);
    n := q;
    if s.els.Some? {
      StandsOn(p, q, Settled(rt) + 1, Settled(st) + 1);
      n := ElseMerged(st, rt, q, s, w, s2, s2', ls, ms);
      GrownTrans(m, q, n);
    }
  }

  lemma ThenMerged(st: State, rt: State, o: Merge, p: Merge, w: Setting, cond: Cond, ls: seq<Label>, s: State,
      s': State)
    requires Inv(rt) && Inv(s) && Inv(s') && Merged(s, s', p, w) && Heads(st, rt, o) && Grown(o, p)
    requires Ready(st, ls) && Compiled(IfThen(st, cond), s, ls) && Extends(IfThen(st, cond), s)
    ensures Target(|s.blocks|, Settled(st) + 1)
    ensures Heads(st, rt, p) && Waiting(st, cond, JumpTo(s, Settled(st) + 1, Normal))
  {
    hide Merged, BlocksOk, Step, NoRepeats, IfThen, Live, OpenInRange, Grown, Untouched, Waiting, Heads, JumpTo;
    ThenDone(st, cond, s, ls);
    HeadLeft(st, cond, ls, s);
    ThenHeads(st, rt, o, p, w, cond, s, s');
  }

  lemma {:induction false} ElseMerged(st: State, rt: State, q: Merge, s: Stmt, w: Setting, s2: State, s2': State,
      ls: seq<Label>, ms: seq<Label>)
    returns (n: Merge)
    requires s.If? && s.els.Some? && ms == Labels(s.els.value) && (w.apart ==> Apart(s, w.trust))
    requires Inv(rt) && Inv(s2') && Ready(st, ls + ms) && Compiled(IfThen(st, s.cond), s2, ls)
      && Extends(IfThen(st, s.cond), s2) && Extends(IfThen(rt, s.cond), s2')
    requires Merged(IfElse(st, s.cond, s2, true), IfElse(rt, s.cond, s2', true), q, w)
      && Stands(q, Settled(rt) + 1, Settled(st) + 1)
    ensures Settled(st) + 1 < |Compile(IfElse(st, s.cond, s2, true), s.els.value, NO_LABEL, w.trust).blocks|
    ensures Settled(rt) + 1 < |Compile(IfElse(rt, s.cond, s2', true), s.els.value, NO_LABEL, STRUCTURAL).blocks|
    ensures Merged(IfDone(st, Compile(IfElse(st, s.cond, s2, true), s.els.value, NO_LABEL, w.trust)),
      IfDone(rt, Compile(IfElse(rt, s.cond, s2', true), s.els.value, NO_LABEL, STRUCTURAL)), n, w) && Grown(q, n)
    decreases s, 0, 0
  {
    hide Merged, BlocksOk, Step, NoRepeats, Compile, IfThen, IfElse, Live, OpenInRange, Grown, Untouched, Stands,
      IfDone, JumpTo, Instrs, CondEdges;
    IfElseSteps(st, s.cond, s2, true, ls, ms);
    var u, u' := IfElse(st, s.cond, s2, true), IfElse(rt, s.cond, s2', true);
    n := CompileMerged(u, u', q, s.els.value, NO_LABEL, w);
    CompileSteps(u, s.els.value, NO_LABEL, w.trust);
    var v, v' := Compile(u, s.els.value, NO_LABEL, w.trust), Compile(u', s.els.value, NO_LABEL, STRUCTURAL);
    MergedInv(v, v', n, w);
    IfDoneSteps(st, u, v, ls, ms) by { InUse(u, Settled(st) + 1); }
    StandsOn(q, n, Settled(rt) + 1, Settled(st) + 1);
    IfDoneMerged(st, rt, n, w, v, v');
  }

  lemma HeadLeft(st: State, cond: Cond, ls: seq<Label>, s: State)
    requires Ready(st, ls) && Compiled(IfThen(st, cond), s, ls)
    ensures s.current != Some(Head(st))
  {
    hide BlocksOk, Step, IfThen, Ensure, NoRepeats, Instrs;
    IfThenSteps(st, cond, ls);
    AboveLabels(st, ls);
    StepBase(st, IfThen(st, cond), Cur(st));
    Bystander(IfThen(st, cond), s, ls, Head(st));
  }

  // The condition's block is not split while the then branch is compiled.
  lemma ThenHeads(st: State, rt: State, o: Merge, p: Merge, w: Setting, cond: Cond, s: State, s': State)
    requires Inv(st) && Inv(rt) && Inv(s) && Inv(s') && Merged(s, s', p, w) && Heads(st, rt, o) && Grown(o, p)
    requires Settled(st) + 1 < |s.blocks| && EXIT < Settled(st) && Waiting(st, cond, JumpTo(s, Settled(st) + 1, Normal))
      && s.current != Some(Head(st))
    ensures Heads(st, rt, p)
  {
    hide Merged, Inv, MergesTo, CleanAll, Grown, BlocksOk, Instrs;
    JumpKeeps(s, Settled(st) + 1, Head(st));
    StillLast(s, s', o, p, w, Head(rt));
  }

  lemma JumpKeeps(s: State, to: BlockId, b: BlockId)
    requires Inv(s) && Target(|s.blocks|, to) && s.current != Some(b)
    ensures |JumpTo(s, to, Normal).blocks| == |s.blocks|
    ensures b < |s.blocks| ==> JumpTo(s, to, Normal).blocks[b].succs == s.blocks[b].succs
  {
    hide BlocksOk;
  }

  lemma {:induction false} LoopMerged(st: State, rt: State, m: Merge, test: Option<Cond>, post: Option<Simple>,
      loop: seq<Stmt>, l: Label, w: Setting)
    returns (n: Merge)
    requires Merged(st, rt, m, w) && Ready(st, LabelsOfList(loop))
      && (w.apart ==> ApartInit(post, w.trust) && ApartAll(loop, w.trust))
    ensures Inv(st) && Inv(rt) && Grown(m, n)
    ensures Merged(CompileLoop(st, test, post, loop, l, w.trust), CompileLoop(rt, test, post, loop, l, STRUCTURAL),
      n, w)
    decreases loop, 1
  {
    hide Merged, BlocksOk, Step, NoRepeats, CompileList, LoopBody, LoopPost, LoopDone, Live, OpenInRange, Grown,
      Untouched, LoopStands, JumpTo, Inv, PostStart;
    MergedInv(st, rt, m, w);
    var ls := LabelsOfList(loop);
    var o := LoopBodyMerged(st, rt, m, w, test, post.Some?, l);
    LoopBodySteps(st, test, post.Some?, l, ls);
    var t, t' := LoopBody(st, test, post.Some?, l), LoopBody(rt, test, post.Some?, l);
    var p := ListMerged(t, t', o, loop, w);
    GrownTrans(m, o, p);
    ListSteps(t, loop, w.trust);
    var s, s' := CompileList(t, loop, w.trust), CompileList(t', loop, STRUCTURAL);
    BodyDone(st, test, post, l, ls, s, w.trust);
    LoopStandsOn(st, rt, o, p, post.Some?);
    n := LoopPostMerged(st, rt, p, w, post, s, s');
    GrownTrans(m, p, n);
    LoopStandsOn(st, rt, p, n, post.Some?);
    LoopDoneMerged(st, rt, m, n, w, LoopPost(st, post, s, w.trust), LoopPost(rt, post, s', STRUCTURAL), post.Some?);
  }

  // After the body: the post statement's block and the block after the loop are untouched.
  lemma BodyDone(st: State, test: Option<Cond>, post: Option<Simple>, l: Label, ls: seq<Label>, s: State,
      trust: Instr -> bool)
    requires Ready(st, ls) && Compiled(LoopBody(st, test, post.Some?, l), s, ls)
      && Extends(LoopBody(st, test, post.Some?, l), s)
    ensures Inv(s) && LoopSize(st, post.Some?) <= |s.blocks|
    ensures post.Some? ==>
      Base(PostStart(st, s)) && Untouched(JumpTo(s, LoopNext(st, true), Normal), LoopNext(st, true))
    ensures Untouched(LoopPost(st, post, s, trust), LoopFirst(st) + 1)
  {
    hide BlocksOk, NoRepeats, JumpTo, LoopBody, Step, TestEdges, SimpleStep, Ensure, Untouched, Live, OpenInRange;
    BodyLeaves(st, test, post, l, ls, s);
    var next := LoopNext(st, post.Some?);
    var j := JumpTo(s, next, RoundKind(post));
    HeaderProper(st);
    if post.Some? {
      StepBase(st, j, Own(st, ls));
      PostSteps(st, j, post.value, next, LoopHeader(st), LoopFirst(st) + 1, trust);
    }
  }

  lemma {:induction false} SwitchAtMerged(st: State, rt: State, m: Merge, clauses: seq<Clause>, n: nat, l: Label,
      w: Setting) returns (r: Merge)
    requires n <= |clauses| && Inv(st) && Inv(rt) && Ready(st, LabelsOfClauses(clauses, |clauses|))
    requires w.apart ==> forall i :: 0 <= i < |clauses| ==> ApartAll(clauses[i].body, w.trust)
    requires Merged(SwitchStart(st, clauses, l), SwitchStart(rt, clauses, l), m, w) && MultiStands(st, rt, m, |clauses|)
    ensures Merged(SwitchAt(st, clauses, n, l, w.trust), SwitchAt(rt, clauses, n, l, STRUCTURAL), r, w) && Grown(m, r)
    decreases clauses, n, 0
  {
    hide Merged, BlocksOk, Inv, CompileCase, SwitchAt, SwitchCase, SwitchStart, SwitchEnter, SwitchLeave, Grown, Ready,
      HeadOpen, MultiStands, Untouched;
    SwitchAtSizes(st, clauses, n, l, w.trust);
    SwitchAtSizes(rt, clauses, n, l, STRUCTURAL);
    if n == 0 {
      r := m;
      KeptRefl(m);
    } else {
      var i := n - 1;
      SwitchAtSizes(st, clauses, i, l, w.trust);
      SwitchAtSizes(rt, clauses, i, l, STRUCTURAL);
      var o := SwitchAtMerged(st, rt, m, clauses, i, l, w);
      SwitchHead(st, clauses, i, l, w.trust);
      SwitchHead(st, clauses, n, l, w.trust);
      var s, s' := SwitchAt(st, clauses, i, l, w.trust), SwitchAt(rt, clauses, i, l, STRUCTURAL);
      SwitchEnterMerged(st, rt, m, o, w, i, |clauses|, s, s');
      SwitchAtStep(st, clauses, i, l, w.trust);
      SwitchAtStep(rt, clauses, i, l, STRUCTURAL);
      r := CaseMerged(SwitchEnter(st, i, s), SwitchEnter(rt, i, s'), o, clauses[i].body, w);
      GrownTrans(m, o, r);
      var e, e' := CompileCase(SwitchEnter(st, i, s), clauses[i].body, w.trust),
        CompileCase(SwitchEnter(rt, i, s'), clauses[i].body, STRUCTURAL);
      SwitchLeaveMerged(st, rt, m, r, w, |clauses|, i, e.0, e'.0, e.1);
    }
  }

  lemma SwitchAtSizes(st: State, clauses: seq<Clause>, n: nat, l: Label, trust: Instr -> bool)
    requires Inv(st) && n <= |clauses|
    ensures n == 0 ==> SwitchAt(st, clauses, n, l, trust) == SwitchStart(st, clauses, l)
    ensures SwitchBlock(st, |clauses|) <= |SwitchAt(st, clauses, n, l, trust).blocks|
  {
    hide BlocksOk, Inv, SwitchStart;
  }

  lemma SwitchAtStep(st: State, clauses: seq<Clause>, i: nat, l: Label, trust: Instr -> bool)
    requires Inv(st) && i < |clauses| && SwitchBlock(st, |clauses|) <= |SwitchAt(st, clauses, i, l, trust).blocks|
    ensures var e := SwitchEnter(st, i, SwitchAt(st, clauses, i, l, trust));
      var r := CompileCase(e, clauses[i].body, trust);
      && SwitchCase(st, clauses, i, l, trust) == e && SwitchBlock(st, |clauses|) <= |r.0.blocks|
      && SwitchAt(st, clauses, i + 1, l, trust) == SwitchLeave(st, |clauses|, i, r.0, r.1)
  {
    hide BlocksOk, Inv, SwitchStart, SwitchLeave, SwitchEnter;
  }

  lemma SwitchEnterMerged(st: State, rt: State, m: Merge, o: Merge, w: Setting, i: nat, n: nat, s: State, s': State)
    requires Inv(st) && Inv(rt) && Inv(s) && Inv(s') && Merged(s, s', o, w) && MultiStands(st, rt, m, n) && Grown(m, o)
      && i < n
    requires SwitchBlock(st, n) <= |s.blocks| && SwitchBlock(rt, n) <= |s'.blocks| && HeadOpen(st, s)
      && Untouched(s, SwitchBlock(st, i))
    ensures Merged(SwitchEnter(st, i, s), SwitchEnter(rt, i, s'), o, w)
  {
    hide Merged, BlocksOk, Inv, Grown, AddEdge;
    HeadProper(st);
    StillLast(s, s', m, o, w, Head(rt));
    StandsOn(m, o, SwitchBlock(rt, i), SwitchBlock(st, i));
    ClauseMerged(s, s', o, w, Head(st), SwitchBlock(st, i), Head(rt), SwitchBlock(rt, i));
  }

  lemma SwitchLeaveMerged(st: State, rt: State, m: Merge, r: Merge, w: Setting, n: nat, i: nat, e: State, e': State,
      falls: bool)
    requires Inv(st) && Inv(rt) && Inv(e) && Inv(e') && Merged(e, e', r, w) && MultiStands(st, rt, m, n) && Grown(m, r)
      && i < n
    requires SwitchBlock(st, n) <= |e.blocks| && SwitchBlock(rt, n) <= |e'.blocks|
    ensures Merged(SwitchLeave(st, n, i, e, falls), SwitchLeave(rt, n, i, e', falls), r, w)
  {
    hide Merged, BlocksOk, Inv, Grown, JumpTo;
    HeadProper(st);
    if falls && i + 1 < n {
      StandsOn(m, r, SwitchBlock(rt, i + 1), SwitchBlock(st, i + 1));
      JumpMerged(e, e', r, w, SwitchBlock(st, i + 1), SwitchBlock(rt, i + 1), EdgeKind.Fallthrough);
    } else {
      StandsOn(m, r, Settled(rt), Settled(st));
      JumpMerged(e, e', r, w, Settled(st), Settled(rt), Normal);
    }
  }

  lemma {:induction false} SwitchMerged(st: State, rt: State, m: Merge, clauses: seq<Clause>, l: Label, w: Setting)
    returns (n: Merge)
    requires Merged(st, rt, m, w) && Ready(st, LabelsOfClauses(clauses, |clauses|))
    requires w.apart ==> forall i :: 0 <= i < |clauses| ==> ApartAll(clauses[i].body, w.trust)
    ensures Inv(st) && Inv(rt) && Grown(m, n)
    ensures Merged(CompileSwitch(st, clauses, l, w.trust), CompileSwitch(rt, clauses, l, STRUCTURAL), n, w)
    decreases clauses, |clauses|, 1
  {
    hide Merged, BlocksOk, Inv, SwitchAt, SwitchStart, MultiDone, Grown, Ready;
    MergedInv(st, rt, m, w);
    var o := SwitchStartMerged(st, rt, m, w, clauses, l);
    n := SwitchAtMerged(st, rt, o, clauses, |clauses|, l, w);
    GrownTrans(m, o, n);
    SwitchHead(st, clauses, |clauses|, l, w.trust);
    StandsOn(o, n, Settled(rt), Settled(st));
    MultiDoneMerged(st, rt, m, n, w, SwitchAt(st, clauses, |clauses|, l, w.trust),
      SwitchAt(rt, clauses, |clauses|, l, STRUCTURAL));
  }

  lemma {:induction false} SelectAtMerged(st: State, rt: State, m: Merge, clauses: seq<Clause>, n: nat, l: Label,
      w: Setting) returns (r: Merge)
    requires n <= |clauses| && Inv(st) && Inv(rt) && Ready(st, LabelsOfClauses(clauses, |clauses|))
    requires w.apart ==> forall i :: 0 <= i < |clauses| ==> ApartAll(clauses[i].body, w.trust)
    requires Merged(SelectStart(st, l), SelectStart(rt, l), m, w) && MultiStands(st, rt, m, 0)
    ensures Merged(SelectAt(st, clauses, n, l, w.trust), SelectAt(rt, clauses, n, l, STRUCTURAL), r, w) && Grown(m, r)
    decreases clauses, n, 0
  {
    hide Merged, BlocksOk, Inv, CompileList, SelectAt, SelectCase, SelectStart, SelectEnter, SelectLeave, Grown, Ready,
      HeadOpen, MultiStands;
    SelectAtSizes(st, clauses, n, l, w.trust);
    SelectAtSizes(rt, clauses, n, l, STRUCTURAL);
    if n == 0 {
      r := m;
      KeptRefl(m);
    } else {
      var i := n - 1;
      SelectAtSizes(st, clauses, i, l, w.trust);
      SelectAtSizes(rt, clauses, i, l, STRUCTURAL);
      var o := SelectAtMerged(st, rt, m, clauses, i, l, w);
      SelectHead(st, clauses, i, l, w.trust);
      SelectHead(st, clauses, n, l, w.trust);
      var s, s' := SelectAt(st, clauses, i, l, w.trust), SelectAt(rt, clauses, i, l, STRUCTURAL);
      var p := SelectEnterMerged(st, rt, m, o, w, s, s');
      SelectAtStep(st, clauses, i, l, w.trust);
      SelectAtStep(rt, clauses, i, l, STRUCTURAL);
      r := ListMerged(SelectEnter(st, s), SelectEnter(rt, s'), p, clauses[i].body, w);
      GrownTrans(m, o, p);
      GrownTrans(m, p, r);
      var e, e' := CompileList(SelectEnter(st, s), clauses[i].body, w.trust),
        CompileList(SelectEnter(rt, s'), clauses[i].body, STRUCTURAL);
      SelectLeaveMerged(st, rt, m, r, w, e, e');
    }
  }

  lemma SelectAtSizes(st: State, clauses: seq<Clause>, n: nat, l: Label, trust: Instr -> bool)
    requires Inv(st) && n <= |clauses|
    ensures n == 0 ==> SelectAt(st, clauses, n, l, trust) == SelectStart(st, l)
    ensures Settled(st) < |SelectAt(st, clauses, n, l, trust).blocks|
  {
    hide BlocksOk, Inv, SelectStart;
  }

  lemma SelectAtStep(st: State, clauses: seq<Clause>, i: nat, l: Label, trust: Instr -> bool)
    requires Inv(st) && i < |clauses| && Settled(st) < |SelectAt(st, clauses, i, l, trust).blocks|
    ensures var e := SelectEnter(st, SelectAt(st, clauses, i, l, trust));
      var r := CompileList(e, clauses[i].body, trust);
      && SelectCase(st, clauses, i, l, trust) == e && Settled(st) < |r.blocks|
      && SelectAt(st, clauses, i + 1, l, trust) == SelectLeave(st, r)
  {
    hide BlocksOk, Inv, SelectStart, SelectLeave, SelectEnter;
  }

  lemma SelectEnterMerged(st: State, rt: State, m: Merge, o: Merge, w: Setting, s: State, s': State) returns (p: Merge)
    requires Inv(st) && Inv(rt) && Inv(s) && Inv(s') && Merged(s, s', o, w) && MultiStands(st, rt, m, 0) && Grown(m, o)
    requires Settled(st) < |s.blocks| && Settled(rt) < |s'.blocks| && HeadOpen(st, s)
    ensures Merged(SelectEnter(st, s), SelectEnter(rt, s'), p, w) && Grown(o, p)
  {
    hide Merged, BlocksOk, Inv, Grown, AddEdge, Kept;
    HeadProper(st);
    StillLast(s, s', m, o, w, Head(rt));
    p := NewMerged(s, s', o, w);
    HeadsKept(st, rt, o, p);
    ClauseMerged(NewBlock(s), NewBlock(s'), p, w, Head(st), |s.blocks|, Head(rt), |s'.blocks|);
  }

  lemma SelectLeaveMerged(st: State, rt: State, m: Merge, r: Merge, w: Setting, e: State, e': State)
    requires Inv(st) && Inv(rt) && Inv(e) && Inv(e') && Merged(e, e', r, w) && MultiStands(st, rt, m, 0) && Grown(m, r)
    requires Settled(st) < |e.blocks| && Settled(rt) < |e'.blocks|
    ensures Merged(SelectLeave(st, e), SelectLeave(rt, e'), r, w)
  {
    hide Merged, BlocksOk, Inv, Grown, JumpTo;
    HeadProper(st);
    StandsOn(m, r, Settled(rt), Settled(st));
    JumpMerged(e, e', r, w, Settled(st), Settled(rt), Normal);
  }

  lemma {:induction false} SelectMerged(st: State, rt: State, m: Merge, clauses: seq<Clause>, l: Label, w: Setting)
    returns (n: Merge)
    requires Merged(st, rt, m, w) && Ready(st, LabelsOfClauses(clauses, |clauses|))
    requires w.apart ==> forall i :: 0 <= i < |clauses| ==> ApartAll(clauses[i].body, w.trust)
    ensures Inv(st) && Inv(rt) && Grown(m, n)
    ensures Merged(CompileSelect(st, clauses, l, w.trust), CompileSelect(rt, clauses, l, STRUCTURAL), n, w)
    decreases clauses, |clauses|, 1
  {
    hide Merged, BlocksOk, Inv, SelectAt, SelectStart, MultiDone, Grown, Ready;
    MergedInv(st, rt, m, w);
    var o := SelectStartMerged(st, rt, m, w, l);
    n := SelectAtMerged(st, rt, o, clauses, |clauses|, l, w);
    GrownTrans(m, o, n);
    SelectHead(st, clauses, |clauses|, l, w.trust);
    StandsOn(o, n, Settled(rt), Settled(st));
    MultiDoneMerged(st, rt, m, n, w, SelectAt(st, clauses, |clauses|, l, w.trust),
      SelectAt(rt, clauses, |clauses|, l, STRUCTURAL));
  }
}
