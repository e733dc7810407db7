/**
 Building with and without trust, step by step: the two states stay merged.
 */
module Splitting {
  import opened Wrappers
  import opened Graph
  import opened Syntax
  import opened Building
  import opened Closing
  import opened Shapes
  import opened Steps
  import opened Merging

  ghost predicate SameCurrent(st: State, rt: State, m: Merge) {
    if rt.current.None? then st.current.None?
    else Has(m, rt.current.value) && st.current == Some(Last(m, rt.current.value))
  }

  ghost predicate SameFrames(fs: seq<Frame>, gs: seq<Frame>, m: Merge) {
    |fs| == |gs| && forall i :: 0 <= i < |fs| ==> SameFrame(fs[i], gs[i], m)
  }

  ghost predicate SameFrame(f: Frame, g: Frame, m: Merge) {
    && f.name == g.name && f.isLoop == g.isLoop
    && Stands(m, g.breakTo, f.breakTo) && (f.isLoop ==> Stands(m, g.continueTo, f.continueTo))
  }

  // Block t is where c starts.
  ghost predicate Stands(m: Merge, c: BlockId, t: BlockId) {
    Has(m, c) && First(m, c) == t
  }

  ghost predicate SameLabels(st: State, rt: State, m: Merge) {
    st.labels.Keys == rt.labels.Keys && forall l :: l in st.labels ==> Stands(m, rt.labels[l], st.labels[l])
  }

  // st was built with trusted calls, rt without: merging st's blocks gives rt's, and both
  // builders are at the same place.
  ghost predicate Merged(st: State, rt: State, m: Merge, w: Setting) {
    && Inv(st) && Inv(rt) && MergesTo(st.blocks, rt.blocks, m, w.trust)
    && SameCurrent(st, rt, m) && SameFrames(st.frames, rt.frames, m) && SameLabels(st, rt, m)
    && CleanAll(st.blocks, m, w)
  }

  lemma StandsOn(m: Merge, n: Merge, c: BlockId, t: BlockId)
    requires Stands(m, c, t) && Grown(m, n)
    ensures Stands(n, c, t)
  {
    assert m.parts[c] <= n.parts[c];
  }

  lemma FramesOn(fs: seq<Frame>, gs: seq<Frame>, m: Merge, n: Merge)
    requires SameFrames(fs, gs, m) && Grown(m, n)
    ensures SameFrames(fs, gs, n)
  {
    hide Stands;
    forall i | 0 <= i < |fs| ensures SameFrame(fs[i], gs[i], n) {
      StandsOn(m, n, gs[i].breakTo, fs[i].breakTo);
      if fs[i].isLoop { StandsOn(m, n, gs[i].continueTo, fs[i].continueTo); }
    }
  }

  lemma LabelsOn(st: State, rt: State, m: Merge, n: Merge)
    requires SameLabels(st, rt, m) && Grown(m, n)
    ensures SameLabels(st, rt, n)
  {
    hide Stands;
    forall l | l in st.labels ensures Stands(n, rt.labels[l], st.labels[l]) {
      StandsOn(m, n, rt.labels[l], st.labels[l]);
    }
  }

  // A block without a trusted stop is the last of its parts.
  lemma Uncut(ts: seq<BasicBlock>, ss: seq<BasicBlock>, m: Merge, trust: Instr -> bool, c: BlockId, i: nat)
    requires MergesTo(ts, ss, m, trust) && c < |ss| && i < |m.parts[c]|
    ensures m.parts[c][i] < |ts|
    ensures NoStops(ts[m.parts[c][i]].succs) ==> Last(m, c) == m.parts[c][i]
  {
    hide Joined;
    var t := m.parts[c][i];
    assert Placed(m, c, i);
    assert Piece(ts, ss, m, trust, t);
    if i + 1 < |m.parts[c]| { assert ts[t].succs[1].kind == TrustedStop; }
  }

  predicate NoStops(succs: seq<Edge>) {
    forall j :: 0 <= j < |succs| ==> succs[j].kind != TrustedStop
  }

  // The block a head stood for when m was current still ends there.
  lemma StillLast(st: State, rt: State, m: Merge, n: Merge, w: Setting, c: BlockId)
    requires Merged(st, rt, n, w) && Has(m, c) && Grown(m, n)
    requires Last(m, c) < |st.blocks| ==> NoStops(st.blocks[Last(m, c)].succs)
    ensures Has(n, c) && Last(n, c) == Last(m, c) && c < |rt.blocks|
  {
    hide MergesTo, CleanAll, SameFrames, SameLabels, SameCurrent, Inv;
    assert m.parts[c] <= n.parts[c];
    assert MergesTo(st.blocks, rt.blocks, n, w.trust) && |n.parts| == |rt.blocks| by { Sizes(st, rt, n, w); }
    Uncut(st.blocks, rt.blocks, n, w.trust, c, |m.parts[c]| - 1);
  }

  lemma Sizes(st: State, rt: State, m: Merge, w: Setting)
    requires Merged(st, rt, m, w)
    ensures |m.of| == |m.at| == |st.blocks| && |m.parts| == |rt.blocks| && Partition(m) && 2 <= |m.parts|
    ensures forall c: nat :: c < |m.parts| ==> Has(m, c) && First(m, c) < |st.blocks| && Last(m, c) < |st.blocks|
    ensures m.parts[EXIT] == [EXIT] && m.parts[ENTRY] != [] && m.parts[ENTRY][0] == ENTRY
  {
    hide Inv, CleanAll, Piece, Joined, SameFrames, SameLabels, SameCurrent;
    forall c: nat | c < |m.parts| ensures Has(m, c) && First(m, c) < |st.blocks| && Last(m, c) < |st.blocks| {
      LastInRange(m, c);
    }
  }

  // Entry and exit stand for themselves, so other blocks are neither.
  lemma Proper(m: Merge, c: BlockId)
    requires Partition(m) && Has(m, c) && 2 <= |m.parts| && m.parts[EXIT] == [EXIT] && m.parts[ENTRY] != []
      && m.parts[ENTRY][0] == ENTRY
    ensures Last(m, c) == EXIT <==> c == EXIT
    ensures First(m, c) == EXIT <==> c == EXIT
    ensures First(m, c) == ENTRY <==> c == ENTRY
  {
    assert Placed(m, c, |m.parts[c]| - 1) && Placed(m, c, 0) && Placed(m, EXIT, 0) && Placed(m, ENTRY, 0);
  }

  /****** Elementary steps ******/

  lemma NewMerged(st: State, rt: State, m: Merge, w: Setting) returns (n: Merge)
    requires Merged(st, rt, m, w)
    ensures Merged(NewBlock(st), NewBlock(rt), n, w) && Kept(m, n) && Grown(m, n)
    ensures Has(n, |rt.blocks|) && First(n, |rt.blocks|) == Last(n, |rt.blocks|) == |st.blocks|
  {
    hide BlocksOk, CleanAll, Piece, Joined, Partition;
    n := WithBlock(m);
    Sizes(st, rt, m, w);
    NewMergesTo(st.blocks, rt.blocks, m, w.trust);
    NewClean(st.blocks, m, w);
    NewPartition(m);
    KeptGrown(m, n);
    FramesOn(st.frames, rt.frames, m, n);
    LabelsOn(st, rt, m, n);
  }

  lemma {:induction false} NewBlocksMerged(st: State, rt: State, m: Merge, w: Setting, k: nat) returns (n: Merge)
    requires Merged(st, rt, m, w)
    ensures Merged(NewBlocks(st, k), NewBlocks(rt, k), n, w) && Kept(m, n) && Grown(m, n)
    ensures forall i :: 0 <= i < k ==> SingleAt(n, |rt.blocks|, |st.blocks|, i)
    decreases k
  {
    hide Merged, NewBlock, Inv, Kept, Grown, SingleAt;
    MergedInv(st, rt, m, w);
    if k == 0 {
      n := m;
      KeptRefl(m);
    } else {
      var o := NewBlocksMerged(st, rt, m, w, k - 1);
      MergedInv(NewBlocks(st, k - 1), NewBlocks(rt, k - 1), o, w);
      n := NewMerged(NewBlocks(st, k - 1), NewBlocks(rt, k - 1), o, w);
      KeptTrans(m, o, n);
      KeptGrown(m, n);
      forall i | 0 <= i < k ensures SingleAt(n, |rt.blocks|, |st.blocks|, i) {
        if i < k - 1 {
          assert SingleAt(o, |rt.blocks|, |st.blocks|, i);
          AtKept(o, n, |rt.blocks|, |st.blocks|, i);
        } else {
          IsAt(n, |rt.blocks|, |st.blocks|, i);
        }
      }
    }
  }

  // c has not been split, and is block t.
  ghost predicate Single(m: Merge, c: BlockId, t: BlockId) {
    Has(m, c) && First(m, c) == t && Last(m, c) == t
  }

  // The i-th of several blocks allocated one after the other.
  ghost predicate SingleAt(m: Merge, c: BlockId, t: BlockId, i: nat) {
    Single(m, c + i, t + i)
  }

  lemma IsAt(m: Merge, c: BlockId, t: BlockId, i: nat)
    ensures SingleAt(m, c, t, i) <==> Single(m, c + i, t + i)
  {}

  lemma AtKept(m: Merge, n: Merge, c: BlockId, t: BlockId, i: nat)
    requires SingleAt(m, c, t, i) && Kept(m, n)
    ensures SingleAt(n, c, t, i)
  {
    SingleKept(m, n, c + i, t + i);
  }

  lemma KeptRefl(m: Merge)
    ensures Kept(m, m) && Grown(m, m)
  {}

  lemma SingleKept(m: Merge, n: Merge, c: BlockId, t: BlockId)
    requires Single(m, c, t) && Kept(m, n)
    ensures Single(n, c, t) && Stands(n, c, t)
  {}

  lemma MergedInv(st: State, rt: State, m: Merge, w: Setting)
    requires Merged(st, rt, m, w)
    ensures Inv(st) && Inv(rt) && |m.parts| == |rt.blocks|
    ensures st.current.None? <==> rt.current.None?
    ensures rt.current.Some? ==> Has(m, rt.current.value) && st.current == Some(Last(m, rt.current.value))
  {}

  lemma EdgeMerged(st: State, rt: State, m: Merge, w: Setting, from: BlockId, to: BlockId, c: BlockId, d: BlockId,
      kind: EdgeKind)
    requires Merged(st, rt, m, w) && from < |st.blocks| && from != EXIT && Target(|st.blocks|, to)
    requires Has(m, c) && Last(m, c) == from && Stands(m, d, to)
    ensures c < |rt.blocks| && c != EXIT && Target(|rt.blocks|, d)
    ensures Merged(AddEdge(st, from, to, kind), AddEdge(rt, c, d, kind), m, w)
  {
    hide BlocksOk, CleanAll, Piece, Joined, Partition;
    Sizes(st, rt, m, w);
    Proper(m, c);
    Proper(m, d);
    EdgeMergesTo(st.blocks, rt.blocks, m, w.trust, c, d, kind);
    SameClean(st.blocks, WithEdge(st.blocks, from, to, kind), m, w);
  }

  // Which blocks are open plays no part.
  lemma OpenMerged(st: State, rt: State, m: Merge, w: Setting, o: set<BlockId>, q: set<BlockId>)
    requires Merged(st, rt, m, w)
    ensures Merged(st.(open := o), rt.(open := q), m, w)
  {
    hide BlocksOk, MergesTo, CleanAll;
  }

  lemma NowhereMerged(st: State, rt: State, m: Merge, w: Setting)
    requires Merged(st, rt, m, w)
    ensures Merged(st.(current := None), rt.(current := None), m, w)
  {
    hide BlocksOk, MergesTo, CleanAll;
  }

  lemma SetMerged(st: State, rt: State, m: Merge, w: Setting, b: BlockId, c: BlockId)
    requires Merged(st, rt, m, w) && Stands(m, c, b) && b < |st.blocks| && EXIT < b && st.blocks[b].succs == []
    ensures c < |rt.blocks| && EXIT < c
    ensures Merged(st.(current := Some(b)), rt.(current := Some(c)), m, w)
  {
    hide BlocksOk, MergesTo, CleanAll;
    Sizes(st, rt, m, w);
    Proper(m, c);
    Uncut(st.blocks, rt.blocks, m, w.trust, c, 0);
  }

  lemma FramesMerged(st: State, rt: State, m: Merge, w: Setting, fs: seq<Frame>, gs: seq<Frame>)
    requires Merged(st, rt, m, w) && SameFrames(fs, gs, m) && Inv(st.(frames := fs)) && Inv(rt.(frames := gs))
    ensures Merged(st.(frames := fs), rt.(frames := gs), m, w)
  {
    hide Inv, MergesTo, CleanAll;
  }

  lemma JumpMerged(st: State, rt: State, m: Merge, w: Setting, to: BlockId, d: BlockId, kind: EdgeKind)
    requires Merged(st, rt, m, w) && Target(|st.blocks|, to) && Stands(m, d, to)
    ensures Target(|rt.blocks|, d) && Merged(JumpTo(st, to, kind), JumpTo(rt, d, kind), m, w)
  {
    hide Merged, AddEdge, Inv;
    MergedInv(st, rt, m, w);
    TargetStands(st, rt, m, w, to, d);
    if rt.current.Some? {
      var b, c := st.current.value, rt.current.value;
      CurrentProper(st);
      EdgeMerged(st, rt, m, w, b, to, c, d, kind);
      var s, s' := AddEdge(st, b, to, kind), AddEdge(rt, c, d, kind);
      NowhereMerged(s, s', m, w);
      OpenMerged(s.(current := None), s'.(current := None), m, w, s.open - {b}, s'.open - {c});
    }
  }

  lemma CurrentProper(st: State)
    requires Inv(st)
    ensures st.current.Some? ==> st.current.value < |st.blocks| && st.current.value != EXIT
  {}

  lemma TargetStands(st: State, rt: State, m: Merge, w: Setting, to: BlockId, d: BlockId)
    requires Merged(st, rt, m, w) && Target(|st.blocks|, to) && Stands(m, d, to)
    ensures Target(|rt.blocks|, d)
  {
    hide Inv, MergesTo, CleanAll, SameFrames, SameLabels;
    Sizes(st, rt, m, w);
    Proper(m, d);
  }

  lemma AbandonMerged(st: State, rt: State, m: Merge, w: Setting)
    requires Merged(st, rt, m, w)
    ensures Merged(Abandon(st), Abandon(rt), m, w)
  {
    hide Merged, Inv;
    MergedInv(st, rt, m, w);
    if rt.current.Some? {
      NowhereMerged(st, rt, m, w);
      OpenMerged(st.(current := None), rt.(current := None), m, w, st.open - {st.current.value},
        rt.open - {rt.current.value});
    }
  }

  lemma EnsureMerged(st: State, rt: State, m: Merge, w: Setting) returns (n: Merge)
    requires Merged(st, rt, m, w)
    ensures Merged(Ensure(st), Ensure(rt), n, w) && Kept(m, n) && Grown(m, n)
    ensures Has(n, Head(rt)) && Last(n, Head(rt)) == Head(st)
    ensures rt.current.None? ==> First(n, Head(rt)) == Head(st)
  {
    hide Merged, Inv, NewBlock;
    MergedInv(st, rt, m, w);
    if rt.current.Some? {
      n := m;
    } else {
      n := NewMerged(st, rt, m, w);
      MergedInv(NewBlock(st), NewBlock(rt), n, w);
      HereMerged(NewBlock(st), NewBlock(rt), n, w, |st.blocks|, |rt.blocks|);
    }
  }

  // Making an unsplit block current.
  lemma HereMerged(st: State, rt: State, m: Merge, w: Setting, b: BlockId, c: BlockId)
    requires Merged(st, rt, m, w) && Single(m, c, b) && EXIT < b
    ensures c < |rt.blocks| && EXIT < c && Merged(st.(current := Some(b)), rt.(current := Some(c)), m, w)
  {
    hide BlocksOk, MergesTo, CleanAll;
    Sizes(st, rt, m, w);
    Proper(m, c);
  }

  lemma EmitMerged(st: State, rt: State, m: Merge, w: Setting, id: Instr) returns (n: Merge)
    requires Merged(st, rt, m, w) && (w.apart ==> !w.trust(id))
    ensures Merged(Building.Emit(st, id), Building.Emit(rt, id), n, w) && Kept(m, n) && Grown(m, n)
  {
    hide Merged, Inv, Ensure;
    n := EnsureMerged(st, rt, m, w);
    MergedInv(st, rt, m, w);
    var s, s' := Ensure(st), Ensure(rt);
    MergedInv(s, s', n, w);
    assert Inv(Building.Emit(st, id)) && Inv(Building.Emit(rt, id));
    EmittedMerged(s, s', n, w, id);
  }

  lemma EmittedMerged(s: State, s': State, m: Merge, w: Setting, id: Instr)
    requires Merged(s, s', m, w) && s'.current.Some? && (w.apart ==> !w.trust(id))
    ensures s.current.Some? && s.current.value < |s.blocks| && s'.current.value < |s'.blocks|
    ensures Merged(s.(blocks := WithInstr(s.blocks, s.current.value, id)),
      s'.(blocks := WithInstr(s'.blocks, s'.current.value, id)), m, w)
  {
    hide BlocksOk, CleanAll, Piece, Joined, Partition;
    EmitMergesTo(s.blocks, s'.blocks, m, w.trust, s'.current.value, id);
    EmitClean(s.blocks, m, w, s'.current.value, id);
    EmitKeeps(s.blocks, s.current.value, id);
    EmitKeeps(s'.blocks, s'.current.value, id);
  }

  lemma RecordMerged(st: State, rt: State, m: Merge, w: Setting, call: CallId, async: bool) returns (n: Merge)
    requires Merged(st, rt, m, w)
    ensures Merged(Record(st, call, async), Record(rt, call, async), n, w) && Kept(m, n) && Grown(m, n)
  {
    hide Merged, Inv, Ensure;
    n := EnsureMerged(st, rt, m, w);
    MergedInv(st, rt, m, w);
    MergedInv(Ensure(st), Ensure(rt), n, w);
    SitesMerged(Ensure(st), Ensure(rt), n, w, Record(st, call, async).sites, Record(rt, call, async).sites);
  }

  lemma SitesMerged(st: State, rt: State, m: Merge, w: Setting, a: map<CallId, CallSite>, b: map<CallId, CallSite>)
    requires Merged(st, rt, m, w)
    ensures Merged(st.(sites := a), rt.(sites := b), m, w)
  {
    hide BlocksOk, MergesTo, CleanAll;
  }

  lemma {:induction false} RecordAllMerged(st: State, rt: State, m: Merge, w: Setting, calls: seq<CallId>)
    returns (n: Merge)
    requires Merged(st, rt, m, w)
    ensures Merged(RecordAll(st, calls), RecordAll(rt, calls), n, w) && Kept(m, n) && Grown(m, n)
    decreases calls
  {
    hide Merged, Inv, Record;
    MergedInv(st, rt, m, w);
    if calls == [] {
      n := m;
    } else {
      var o := RecordMerged(st, rt, m, w, calls[0], false);
      MergedInv(Record(st, calls[0], false), Record(rt, calls[0], false), o, w);
      n := RecordAllMerged(Record(st, calls[0], false), Record(rt, calls[0], false), o, w, calls[1..]);
      KeptTrans(m, o, n);
      KeptGrown(m, n);
    }
  }

  /****** Simple statements ******/

  // What a trusted call adds to the builder's state: its instruction, and a split.
  ghost function TrustedStep(s: State, id: Instr): (r: State)
    requires Inv(s) && s.current.Some?
  {
    EmitKeeps(s.blocks, s.current.value, id);
    var e := s.(blocks := WithInstr(s.blocks, s.current.value, id));
    var b, next := s.current.value, |s.blocks|;
    Close(AddEdge(AddEdge(NewBlock(e), b, next, Normal), b, EXIT, TrustedStop).(current := Some(next)), b)
  }

  lemma TrustedMerged(s: State, s': State, m: Merge, w: Setting, id: Instr) returns (n: Merge)
    requires Merged(s, s', m, w) && s.current.Some? && s.current.value < |s.blocks|
      && s.blocks[s.current.value].succs == [] && w.trust(id)
    ensures s'.current.Some? && s'.current.value < |s'.blocks| && Grown(m, n)
    ensures Inv(s) && Merged(TrustedStep(s, id), s'.(blocks := WithInstr(s'.blocks, s'.current.value, id)), n, w)
  {
    hide BlocksOk, Piece, Joined, Partition, MergesTo, CleanAll;
    var b, c := s.current.value, s'.current.value;
    Sizes(s, s', m, w);
    Proper(m, c);
    EmitMergesTo(s.blocks, s'.blocks, m, w.trust, c, id);
    EmitKeeps(s'.blocks, c, id);
    var ts := WithInstr(s.blocks, b, id);
    SplitMergesTo(ts, WithInstr(s'.blocks, c, id), m, w.trust, c);
    SplitClean(s.blocks, m, w, c, id);
    SplitPartition(m, c);
    n := Split(m, c);
    FramesOn(s.frames, s'.frames, m, n);
    LabelsOn(s, s', m, n);
    assert TrustedStep(s, id).blocks == Linked(ts, b);
  }

  lemma SimpleMerged(st: State, rt: State, m: Merge, w: Setting, x: Simple) returns (n: Merge)
    requires Merged(st, rt, m, w) && Base(st) && (w.apart ==> ApartSimple(x, w.trust))
    ensures Merged(SimpleStep(st, x, w.trust), SimpleStep(rt, x, STRUCTURAL), n, w) && Grown(m, n)
  {
    hide Merged, Inv, RecordAll, Building.Emit, JumpTo, Step, AddEdge, NewBlock, Ensure, TrustedStep;
    MergedInv(st, rt, m, w);
    var o := RecordAllMerged(st, rt, m, w, x.calls);
    var s0, s0' := RecordAll(st, x.calls), RecordAll(rt, x.calls);
    MergedInv(s0, s0', o, w);
    if !x.panics && w.trust(x.id) {
      var p := EnsureMerged(s0, s0', o, w);
      GrownTrans(m, o, p);
      MergedInv(Ensure(s0), Ensure(s0'), p, w);
      EnsuredHere(st, x);
      n := TrustedMerged(Ensure(s0), Ensure(s0'), p, w, x.id);
      GrownTrans(m, p, n);
      SimpleTrusted(st, x, w.trust);
      SimpleTrusting(rt, x);
    } else {
      n := EmitMerged(s0, s0', o, w, x.id);
      GrownTrans(m, o, n);
      var s, s' := Building.Emit(s0, x.id), Building.Emit(s0', x.id);
      MergedInv(s, s', n, w);
      if x.panics {
        ExitStands(s, s', n, w);
        JumpMerged(s, s', n, w, EXIT, EXIT, Panic);
      }
    }
  }

  lemma SimpleTrusted(st: State, x: Simple, trust: Instr -> bool)
    requires Inv(st) && !x.panics && trust(x.id)
    ensures SimpleStep(st, x, trust) == TrustedStep(Ensure(RecordAll(st, x.calls)), x.id)
  {
    hide BlocksOk, RecordAll, Ensure, AddEdge, NewBlock;
    var s := RecordAll(st, x.calls);
    var e := Ensure(s);
    assert Building.Emit(s, x.id) == e.(blocks := WithInstr(e.blocks, e.current.value, x.id));
  }

  lemma SimpleTrusting(rt: State, x: Simple)
    requires Inv(rt) && !x.panics
    ensures var e := Ensure(RecordAll(rt, x.calls));
      e.current.value < |e.blocks|
        && SimpleStep(rt, x, STRUCTURAL) == e.(blocks := WithInstr(e.blocks, e.current.value, x.id))
  {
    hide BlocksOk, RecordAll, Ensure;
  }

  lemma ExitStands(st: State, rt: State, m: Merge, w: Setting)
    requires Merged(st, rt, m, w)
    ensures Stands(m, EXIT, EXIT) && Target(|st.blocks|, EXIT)
  {
    hide MergesTo, CleanAll, SameFrames, SameLabels, SameCurrent, BlocksOk;
    Sizes(st, rt, m, w);
  }

  // A simple statement's instruction goes to a block without edges.
  lemma EnsuredHere(st: State, x: Simple)
    requires Base(st)
    ensures var s := Ensure(RecordAll(st, x.calls));
      s.current.Some? && s.current.value < |s.blocks| && s.blocks[s.current.value].succs == []
  {
    hide BlocksOk, Step, RecordAll, Ensure;
    RecordAllSteps(st, x.calls);
    var s0 := RecordAll(st, x.calls);
    StepBase(st, s0, Cur(st));
    EnsureSteps(s0);
  }

  lemma {:induction false} SpecsMerged(st: State, rt: State, m: Merge, w: Setting, specs: seq<Simple>)
    returns (n: Merge)
    requires Merged(st, rt, m, w) && Ready(st, [])
      && (w.apart ==> forall i :: 0 <= i < |specs| ==> ApartSimple(specs[i], w.trust))
    ensures Merged(SpecsStep(st, specs, w.trust), SpecsStep(rt, specs, STRUCTURAL), n, w) && Grown(m, n)
    decreases specs
  {
    hide Merged, SimpleStep, BlocksOk, Step;
    MergedInv(st, rt, m, w);
    if specs == [] {
      n := m;
      KeptRefl(m);
    } else {
      var o := SimpleMerged(st, rt, m, w, specs[0]);
      var s, s' := SimpleStep(st, specs[0], w.trust), SimpleStep(rt, specs[0], STRUCTURAL);
      SimpleSteps(st, specs[0], w.trust);
      var none: seq<Label> := [];
      assert none + none == none;
      ReadyNext(st, s, [], []);
      n := SpecsMerged(s, s', o, w, specs[1..]);
      GrownTrans(m, o, n);
    }
  }

  lemma InitMerged(st: State, rt: State, m: Merge, w: Setting, init: Option<Simple>) returns (n: Merge)
    requires Merged(st, rt, m, w) && Base(st) && (w.apart ==> ApartInit(init, w.trust))
    ensures Merged(InitStep(st, init, w.trust), InitStep(rt, init, STRUCTURAL), n, w) && Grown(m, n)
  {
    hide Merged, SimpleStep, Inv;
    MergedInv(st, rt, m, w);
    n := m;
    KeptRefl(m);
    if init.Some? { n := SimpleMerged(st, rt, m, w, init.value); }
  }

  /****** Branches and labels ******/

  lemma {:induction false} BreakMerged(fs: seq<Frame>, gs: seq<Frame>, m: Merge, l: Label)
    requires SameFrames(fs, gs, m)
    ensures ResolveBreak(fs, l).None? <==> ResolveBreak(gs, l).None?
    ensures ResolveBreak(gs, l).Some? ==> Stands(m, ResolveBreak(gs, l).value, ResolveBreak(fs, l).value)
    decreases |fs|
  {
    hide Stands;
    if fs != [] {
      assert SameFrame(fs[|fs| - 1], gs[|gs| - 1], m);
      BreakMerged(fs[..|fs| - 1], gs[..|gs| - 1], m, l);
    }
  }

  lemma {:induction false} ContinueMerged(fs: seq<Frame>, gs: seq<Frame>, m: Merge, l: Label)
    requires SameFrames(fs, gs, m)
    ensures ResolveContinue(fs, l).None? <==> ResolveContinue(gs, l).None?
    ensures ResolveContinue(gs, l).Some? ==> Stands(m, ResolveContinue(gs, l).value, ResolveContinue(fs, l).value)
    decreases |fs|
  {
    hide Stands;
    if fs != [] {
      assert SameFrame(fs[|fs| - 1], gs[|gs| - 1], m);
      ContinueMerged(fs[..|fs| - 1], gs[..|gs| - 1], m, l);
    }
  }

  lemma BranchMerged(st: State, rt: State, m: Merge, w: Setting, to: Option<BlockId>, d: Option<BlockId>,
      kind: EdgeKind) returns (n: Merge)
    requires Merged(st, rt, m, w) && (to.Some? ==> Target(|st.blocks|, to.value))
    requires (to.None? <==> d.None?) && (d.Some? ==> Stands(m, d.value, to.value))
    ensures d.Some? ==> Target(|rt.blocks|, d.value)
    ensures Inv(st) && Inv(rt) && Merged(Branch(st, to, kind), Branch(rt, d, kind), n, w) && Grown(m, n)
  {
    hide Merged, Inv, JumpTo, Ensure, Abandon;
    MergedInv(st, rt, m, w);
    if d.Some? {
      TargetStands(st, rt, m, w, to.value, d.value);
      n := EnsureMerged(st, rt, m, w);
      StandsOn(m, n, d.value, to.value);
      JumpMerged(Ensure(st), Ensure(rt), n, w, to.value, d.value, kind);
    } else {
      n := m;
      KeptRefl(m);
      AbandonMerged(st, rt, m, w);
    }
  }

  lemma FramesAndLabels(st: State, rt: State, m: Merge, w: Setting)
    requires Merged(st, rt, m, w)
    ensures SameFrames(st.frames, rt.frames, m)
    ensures forall l :: l in st.labels <==> l in rt.labels
    ensures forall l :: l in st.labels ==> Stands(m, rt.labels[l], st.labels[l]) && EXIT < st.labels[l] < |st.blocks|
  {
    hide BlocksOk, MergesTo, CleanAll, Stands;
  }

  lemma EnterMerged(st: State, rt: State, m: Merge, w: Setting, l: Label, ls: seq<Label>)
    requires Merged(st, rt, m, w) && Ready(st, [l] + ls)
    ensures Inv(rt) && Merged(EnterLabel(st, l), EnterLabel(rt, l), m, w)
  {
    hide Merged, BlocksOk, JumpTo, Step;
    MergedInv(st, rt, m, w);
    FramesAndLabels(st, rt, m, w);
    assert l in [l] + ls;
    var t, c := st.labels[l], rt.labels[l];
    EnterLabelSteps(st, l, ls);
    if rt.current == Some(c) { SingleHere(st, rt, m, w, t, c); }
    JumpMerged(st, rt, m, w, t, c, Normal);
    SetMerged(JumpTo(st, t, Normal), JumpTo(rt, c, Normal), m, w, t, c);
  }

  lemma SingleHere(st: State, rt: State, m: Merge, w: Setting, t: BlockId, c: BlockId)
    requires Merged(st, rt, m, w) && Stands(m, c, t) && Untouched(st, t)
    ensures Last(m, c) == t
  {
    hide SameFrames, SameLabels, SameCurrent, Inv, MergesTo, CleanAll;
    Sizes(st, rt, m, w);
    Uncut(st.blocks, rt.blocks, m, w.trust, c, 0);
  }
}
