/**
 Where recorded calls land: every call site names the instruction its statement became.
 */
module CallSites {
  import opened Wrappers
  import opened Graph
  import opened Syntax
  import opened Semantics
  import opened Building
  import opened Simulation
  import opened Bisimulation
  import opened Correctness

  // A call in the direct effect position of a statement: the instruction the statement
  // becomes, and whether the call is only launched.
  datatype Held = Held(call: CallId, id: Instr, async: bool)

  function HeldAll(calls: seq<CallId>, id: Instr): set<Held> {
    set c | c in calls :: Held(c, id, false)
  }

  function HeldSimple(x: Simple): set<Held> {
    HeldAll(x.calls, x.id)
  }

  function HeldInit(init: Option<Simple>): set<Held> {
    if init.Some? then HeldSimple(init.value) else {}
  }

  function HeldSpecs(specs: seq<Simple>): set<Held> {
    if specs == [] then {} else HeldSimple(specs[0]) + HeldSpecs(specs[1..])
  }

  function HeldBy(s: Stmt): set<Held>
    decreases s, 0
  {
    match s
    case Block(list) => HeldIn(list)
    case Labeled(_, body) => HeldBy(body)
    case Exec(x) => HeldSimple(x)
    case VarDecl(specs) => HeldSpecs(specs)
    case GoCall(id, call) => {Held(call, id, true)}
    case DeferCall(id, call) => {Held(call, id, false)}
    case ReturnStmt(id, calls) => HeldAll(calls, id)
    case If(init, _, thn, els) => HeldInit(init) + HeldIn(thn) + if els.Some? then HeldBy(els.value) else {}
    case For(init, _, post, loop) => HeldInit(init) + HeldInit(post) + HeldIn(loop)
    case Range(loop) => HeldIn(loop)
    case Switch(init, clauses) => HeldInit(init) + HeldInClauses(clauses, |clauses|)
    case Select(clauses) => HeldInClauses(clauses, |clauses|)
    case _ => {}
  }

  function HeldIn(list: seq<Stmt>): set<Held>
    decreases list, 0
  {
    if list == [] then {} else HeldBy(list[0]) + HeldIn(list[1..])
  }

  function HeldInClauses(clauses: seq<Clause>, n: nat): set<Held>
    requires n <= |clauses|
    decreases clauses, n
  {
    if n == 0 then {} else HeldInClauses(clauses, n - 1) + HeldIn(clauses[n - 1].body)
  }

  /****** Sites stay right ******/

  ghost predicate SiteOk(blocks: seq<BasicBlock>, c: CallId, site: CallSite, all: set<Held>) {
    && site.block < |blocks| && site.index < |blocks[site.block].instrs|
    && Held(c, blocks[site.block].instrs[site.index], site.async) in all
  }

  ghost predicate SitesOk(st: State, all: set<Held>) {
    forall c :: c in st.sites ==> SiteOk(st.blocks, c, st.sites[c], all)
  }

  // No instruction emitted so far is lost or moved, and no site forgotten.
  ghost predicate Keeps(st: State, r: State) {
    && |st.blocks| <= |r.blocks|
    && (forall b :: 0 <= b < |st.blocks| ==> st.blocks[b].instrs <= r.blocks[b].instrs)
    && st.sites.Keys <= r.sites.Keys
  }

  // What compiling a piece of code that holds these calls does to the sites; all of them
  // are recorded if its fallthroughs are well placed.
  ghost predicate Records(st: State, r: State, held: set<Held>, placed: bool) {
    && Keeps(st, r)
    && (placed ==> forall h :: h in held ==> h.call in r.sites)
    && (forall all :: held <= all && SitesOk(st, all) ==> SitesOk(r, all))
  }

  lemma RecordsTrans(a: State, b: State, c: State, h1: set<Held>, h2: set<Held>, held: set<Held>, placed: bool)
    requires Records(a, b, h1, placed) && Records(b, c, h2, placed) && held == h1 + h2
    ensures Records(a, c, held, placed)
  {
    hide SitesOk;
    forall i | 0 <= i < |a.blocks| ensures a.blocks[i].instrs <= c.blocks[i].instrs {
      assert a.blocks[i].instrs <= b.blocks[i].instrs <= c.blocks[i].instrs;
    }
  }

  // Steps that emit and record nothing.
  ghost predicate Quiet(st: State, r: State) {
    && |st.blocks| <= |r.blocks| && r.sites == st.sites
    && (forall b :: 0 <= b < |st.blocks| ==> st.blocks[b].instrs == r.blocks[b].instrs)
  }

  lemma QuietRecords(st: State, r: State)
    requires Quiet(st, r)
    ensures Records(st, r, {}, true)
  {}

  lemma After(st: State, s: State, r: State, held: set<Held>, placed: bool)
    requires Records(st, s, held, placed) && Quiet(s, r)
    ensures Records(st, r, held, placed)
  {
    hide Records, Quiet;
    QuietRecords(s, r);
    Weaken(s, r, {}, true, placed);
    RecordsTrans(st, s, r, held, {}, held, placed);
  }

  lemma Before(st: State, s: State, r: State, held: set<Held>, placed: bool)
    requires Quiet(st, s) && Records(s, r, held, placed)
    ensures Records(st, r, held, placed)
  {
    hide Records, Quiet;
    QuietRecords(st, s);
    Weaken(st, s, {}, true, placed);
    RecordsTrans(st, s, r, {}, held, held, placed);
  }

  lemma Weaken(st: State, r: State, held: set<Held>, strong: bool, placed: bool)
    requires Records(st, r, held, strong) && (placed ==> strong)
    ensures Records(st, r, held, placed)
  {}

  /****** Recording, then emitting ******/

  // The site of a call in the statement about to be emitted.
  ghost function NextSite(st: State, async: bool): CallSite
    requires Inv(st)
  {
    CallSite(Head(st), |Ensure(st).blocks[Head(st)].instrs|, async)
  }

  lemma {:induction false} RecordAllSites(st: State, calls: seq<CallId>)
    requires Inv(st) && calls != []
    ensures RecordAll(st, calls) == Ensure(st).(sites := RecordAll(st, calls).sites)
    ensures RecordAll(st, calls).sites.Keys == st.sites.Keys + set c | c in calls
    ensures forall c :: c in RecordAll(st, calls).sites ==>
      RecordAll(st, calls).sites[c] == if c in calls then NextSite(st, false) else st.sites[c]
    decreases calls
  {
    hide BlocksOk;
    var s := Record(st, calls[0], false);
    assert s == Ensure(st).(sites := st.sites[calls[0] := NextSite(st, false)]);
    if calls[1..] != [] {
      assert Ensure(s) == s && NextSite(s, false) == NextSite(st, false);
      RecordAllSites(s, calls[1..]);
    } else {
      assert RecordAll(s, calls[1..]) == s;
    }
  }

  lemma EmitRecords(st: State, calls: seq<CallId>, id: Instr)
    requires Inv(st)
    ensures Records(st, Building.Emit(RecordAll(st, calls), id), HeldAll(calls, id), true)
  {
    hide BlocksOk, Inv, Building.Emit, Ensure, RecordAll;
    if calls != [] {
      RecordAllSites(st, calls);
      EmitInto(st, RecordAll(st, calls), id);
    } else {
      RecordNone(st);
      EmitQuiet(st, id);
      NoneHeld(id);
      assert Keeps(st, Building.Emit(st, id));
    }
  }

  lemma EmitQuiet(st: State, id: Instr)
    requires Inv(st)
    ensures var e := Building.Emit(st, id);
      |st.blocks| <= |e.blocks| && e.sites == st.sites && forall b :: 0 <= b < |st.blocks| ==>
        st.blocks[b].instrs <= e.blocks[b].instrs
  {
    hide BlocksOk;
  }

  // r: st with sites for the next instruction.
  lemma EmitInto(st: State, r: State, id: Instr)
    requires Inv(st) && Inv(r) && r == Ensure(st).(sites := r.sites)
    ensures var e := Building.Emit(r, id);
      && |st.blocks| <= |e.blocks| && e.sites == r.sites
      && (forall b :: 0 <= b < |st.blocks| ==> st.blocks[b].instrs <= e.blocks[b].instrs)
      && Head(st) < |e.blocks| && e.blocks[Head(st)].instrs == Ensure(st).blocks[Head(st)].instrs + [id]
  {
    hide BlocksOk;
  }

  lemma LaunchRecords(st: State, call: CallId, async: bool, id: Instr)
    requires Inv(st)
    ensures Records(st, Building.Emit(Record(st, call, async), id), {Held(call, id, async)}, true)
  {
    hide BlocksOk;
    EmitInto(st, Record(st, call, async), id);
  }

  /****** Statements ******/

  lemma SimpleRecords(st: State, x: Simple, trust: Instr -> bool)
    requires Inv(st)
    ensures Records(st, SimpleStep(st, x, trust), HeldSimple(x), true)
  {
    hide BlocksOk, Building.Emit, RecordAll, Records;
    EmitRecords(st, x.calls, x.id);
    var s := Building.Emit(RecordAll(st, x.calls), x.id);
    After(st, s, SimpleStep(st, x, trust), HeldSimple(x), true);
  }

  lemma InitRecords(st: State, init: Option<Simple>, trust: Instr -> bool, placed: bool)
    requires Inv(st)
    ensures Records(st, InitStep(st, init, trust), HeldInit(init), placed)
  {
    hide BlocksOk, SimpleStep;
    if init.Some? { SimpleRecords(st, init.value, trust); }
  }

  lemma {:induction false} SpecsRecord(st: State, specs: seq<Simple>, trust: Instr -> bool)
    requires Inv(st)
    ensures Records(st, SpecsStep(st, specs, trust), HeldSpecs(specs), true)
    decreases specs
  {
    hide BlocksOk, SimpleStep;
    if specs != [] {
      var s := SimpleStep(st, specs[0], trust);
      SimpleRecords(st, specs[0], trust);
      SpecsRecord(s, specs[1..], trust);
      RecordsTrans(st, s, SpecsStep(st, specs, trust), HeldSimple(specs[0]), HeldSpecs(specs[1..]), HeldSpecs(specs),
        true);
    }
  }

  predicate IsLeaf(s: Stmt) {
    !s.Block? && !s.Labeled? && !s.If? && !s.For? && !s.Range? && !s.Switch? && !s.Select?
  }

  lemma LeafRecords(st: State, s: Stmt, l: Label, trust: Instr -> bool)
    requires Inv(st) && IsLeaf(s)
    ensures Records(st, Compile(st, s, l, trust), HeldBy(s), FallsPlaced(s))
  {
    hide BlocksOk, Records, Quiet, SimpleStep, Building.Emit, RecordAll, Record, JumpTo, SpecsStep;
    var r, p := Compile(st, s, l, trust), FallsPlaced(s);
    match s {
      case Exec(x) => SimpleRecords(st, x, trust);
      case VarDecl(specs) => SpecsRecord(st, specs, trust);
      case Opaque(id) => EmitRecords(st, [], id); NoneHeld(id); RecordNone(st);
      case GoCall(id, call) => LaunchRecords(st, call, true, id);
      case DeferCall(id, call) => LaunchRecords(st, call, false, id);
      case ReturnStmt(id, calls) =>
        var e := Building.Emit(RecordAll(st, calls), id);
        EmitRecords(st, calls, id);
        After(st, e, r, HeldBy(s), true) by { JumpQuiet(e, EXIT, Return); }
      case BreakStmt(m) => BranchRecords(st, ResolveBreak(st.frames, m), EdgeKind.Break);
      case ContinueStmt(m) => BranchRecords(st, ResolveContinue(st.frames, m), EdgeKind.Continue);
      case GotoStmt(m) => BranchRecords(st, if m in st.labels then Some(st.labels[m]) else None, EdgeKind.Goto);
      case FallthroughStmt(id) => EmitRecords(st, [], id); NoneHeld(id); RecordNone(st);
      case Empty => Still(st, true);
    }
    Weaken(st, r, HeldBy(s), true, p);
  }

  lemma {:induction false} CompileRecords(st: State, s: Stmt, l: Label, trust: Instr -> bool)
    requires Inv(st)
    ensures Records(st, Compile(st, s, l, trust), HeldBy(s), FallsPlaced(s))
    decreases s, 1
  {
    hide BlocksOk, Records, Quiet, SimpleStep, Building.Emit, RecordAll, Record, CompileIf, CompileLoop, CompileSwitch,
      CompileSelect, CompileList, InitStep, SpecsStep;
    var r, p := Compile(st, s, l, trust), FallsPlaced(s);
    match s {
      case Block(list) => ListRecords(st, list, trust);
      case Labeled(m, body) =>
        var e := EnterLabel(st, m);
        CompileRecords(e, body, m, trust);
        Before(st, e, r, HeldBy(s), p) by { EnterQuiet(st, m); }
      case If(init, _, _, _) =>
        var i := InitStep(st, init, trust);
        InitRecords(st, init, trust, p);
        IfRecords(i, s, trust);
        RecordsTrans(st, i, r, HeldInit(init), HeldBranches(s), HeldBy(s), p);
      case For(init, test, post, loop) =>
        var i := InitStep(st, init, trust);
        InitRecords(st, init, trust, p);
        LoopRecords(i, test, post, loop, l, trust);
        RecordsTrans(st, i, r, HeldInit(init), HeldInit(post) + HeldIn(loop), HeldBy(s), p);
      case Range(loop) =>
        LoopRecords(st, Some(Unknown), None, loop, l, trust);
        assert HeldInit(None) + HeldIn(loop) == HeldBy(s);
      case Switch(init, clauses) =>
        var i := InitStep(st, init, trust);
        InitRecords(st, init, trust, p);
        SwitchRecords(i, clauses, l, trust);
        RecordsTrans(st, i, r, HeldInit(init), HeldInClauses(clauses, |clauses|), HeldBy(s), p);
      case Select(clauses) => SelectRecords(st, clauses, l, trust);
      case _ => LeafRecords(st, s, l, trust);
    }
  }

  lemma Still(st: State, placed: bool)
    ensures Records(st, st, {}, placed)
  {}

  lemma NoneHeld(id: Instr)
    ensures HeldAll([], id) == {}
  {}

  lemma RecordNone(st: State)
    requires Inv(st)
    ensures RecordAll(st, []) == st
  {
    hide BlocksOk;
  }

  /****** Steps that neither emit nor record ******/

  lemma JumpQuiet(st: State, to: BlockId, kind: EdgeKind)
    requires Inv(st) && Target(|st.blocks|, to)
    ensures Quiet(st, JumpTo(st, to, kind))
  {
    hide BlocksOk;
  }

  lemma EnterQuiet(st: State, m: Label)
    requires Inv(st)
    ensures Quiet(st, EnterLabel(st, m))
  {
    hide BlocksOk;
  }

  lemma BranchRecords(st: State, target: Option<BlockId>, kind: EdgeKind)
    requires Inv(st) && (target.Some? ==> Target(|st.blocks|, target.value))
    ensures Records(st, Branch(st, target, kind), {}, true)
  {
    hide BlocksOk, Records;
    assert Quiet(st, Branch(st, target, kind));
    QuietRecords(st, Branch(st, target, kind));
  }

  /****** Compound statements ******/

  lemma ListRecords(st: State, list: seq<Stmt>, trust: Instr -> bool)
    requires Inv(st)
    ensures Records(st, CompileList(st, list, trust), HeldIn(list), FallsPlacedIn(list))
    decreases list, 0
  {
    hide BlocksOk, Records, Compile;
    if list == [] {
      Still(st, true);
    } else {
      var s := Compile(st, list[0], NO_LABEL, trust);
      var r, p := CompileList(st, list, trust), FallsPlacedIn(list);
      CompileRecords(st, list[0], NO_LABEL, trust);
      Weaken(st, s, HeldBy(list[0]), FallsPlaced(list[0]), p);
      ListRecords(s, list[1..], trust);
      Weaken(s, r, HeldIn(list[1..]), FallsPlacedIn(list[1..]), p);
      RecordsTrans(st, s, r, HeldBy(list[0]), HeldIn(list[1..]), HeldIn(list), p);
    }
  }

  function HeldBranches(s: Stmt): set<Held>
    requires s.If?
  {
    HeldIn(s.thn) + if s.els.Some? then HeldBy(s.els.value) else {}
  }

  lemma IfRecords(st: State, s: Stmt, trust: Instr -> bool)
    requires Inv(st) && s.If?
    ensures Records(st, CompileIf(st, s, trust), HeldBranches(s), FallsPlaced(s))
    decreases s, 0
  {
    hide BlocksOk, Records, Quiet, Compile, CompileList, IfThen, IfElse, IfDone;
    var p := FallsPlaced(s);
    var t0 := IfThen(st, s.cond);
    var t1 := CompileList(t0, s.thn, trust);
    var t2 := IfElse(st, s.cond, t1, s.els.Some?);
    ListRecords(t0, s.thn, trust);
    Weaken(t0, t1, HeldIn(s.thn), FallsPlacedIn(s.thn), p);
    Before(st, t0, t1, HeldIn(s.thn), p) by { IfThenQuiet(st, s.cond); }
    After(st, t1, t2, HeldIn(s.thn), p) by { IfElseQuiet(st, s.cond, t1, s.els.Some?); }
    if s.els.Some? {
      var t3 := Compile(t2, s.els.value, NO_LABEL, trust);
      CompileRecords(t2, s.els.value, NO_LABEL, trust);
      Weaken(t2, t3, HeldBy(s.els.value), FallsPlaced(s.els.value), p);
      RecordsTrans(st, t2, t3, HeldIn(s.thn), HeldBy(s.els.value), HeldBranches(s), p);
      After(st, t3, IfDone(st, t3), HeldBranches(s), p) by { IfDoneQuiet(st, t3); }
    } else {
      assert HeldBranches(s) == HeldIn(s.thn);
    }
  }

  lemma IfThenQuiet(st: State, cond: Cond)
    requires Inv(st)
    ensures Quiet(st, IfThen(st, cond))
  {
    hide BlocksOk;
  }

  lemma IfElseQuiet(st: State, cond: Cond, s: State, hasElse: bool)
    requires Inv(st) && Inv(s) && Extends(IfThen(st, cond), s)
    ensures Quiet(s, IfElse(st, cond, s, hasElse))
  {
    hide BlocksOk, IfThen;
  }

  lemma IfDoneQuiet(st: State, s: State)
    requires Inv(st) && Inv(s) && Settled(st) + 1 < |s.blocks|
    ensures Quiet(s, IfDone(st, s))
  {
    hide BlocksOk;
  }

  lemma LoopRecords(st: State, test: Option<Cond>, post: Option<Simple>, loop: seq<Stmt>, l: Label,
      trust: Instr -> bool)
    requires Inv(st)
    ensures Records(st, CompileLoop(st, test, post, loop, l, trust), HeldInit(post) + HeldIn(loop), FallsPlacedIn(loop))
    decreases loop, 1
  {
    hide BlocksOk, Records, Quiet, CompileList, LoopBody, LoopPost, LoopDone;
    var p, h := FallsPlacedIn(loop), HeldInit(post) + HeldIn(loop);
    var t0 := LoopBody(st, test, post.Some?, l);
    var t1 := CompileList(t0, loop, trust);
    var t2 := LoopPost(st, post, t1, trust);
    ListRecords(t0, loop, trust);
    Before(st, t0, t1, HeldIn(loop), p) by { LoopBodyQuiet(st, test, post.Some?, l); }
    PostRecords(st, post, t1, trust);
    Weaken(t1, t2, HeldInit(post), true, p);
    RecordsTrans(st, t1, t2, HeldIn(loop), HeldInit(post), h, p);
    After(st, t2, LoopDone(st, t2), h, p) by { LoopDoneQuiet(st, t2); }
  }

  lemma LoopBodyQuiet(st: State, test: Option<Cond>, hasPost: bool, l: Label)
    requires Inv(st)
    ensures Quiet(st, LoopBody(st, test, hasPost, l))
  {
    hide BlocksOk, LoopBlocks;
    NewBlocksQuiet(JumpTo(Ensure(NewBlock(st)), LoopHeader(st), Normal), if hasPost then 3 else 2);
    LoopBlocksQuiet(st, hasPost);
  }

  lemma LoopBlocksQuiet(st: State, hasPost: bool)
    requires Inv(st)
    ensures Quiet(st, LoopBlocks(st, hasPost))
  {
    hide BlocksOk, NewBlocks;
    NewBlocksQuiet(JumpTo(Ensure(NewBlock(st)), LoopHeader(st), Normal), if hasPost then 3 else 2);
  }

  lemma {:induction false} NewBlocksQuiet(st: State, n: nat)
    requires Inv(st)
    ensures Quiet(st, NewBlocks(st, n))
  {
    hide BlocksOk;
    if n > 0 { NewBlocksQuiet(st, n - 1); }
  }

  lemma PostRecords(st: State, post: Option<Simple>, s: State, trust: Instr -> bool)
    requires Inv(st) && Inv(s) && LoopSize(st, post.Some?) <= |s.blocks|
    ensures Records(s, LoopPost(st, post, s, trust), HeldInit(post), true)
  {
    hide BlocksOk, Records, SimpleStep, JumpTo, Quiet;
    var s1 := JumpTo(s, LoopNext(st, post.Some?), if post.Some? then Normal else LoopBack);
    JumpQuiet(s, LoopNext(st, post.Some?), if post.Some? then Normal else LoopBack);
    if post.None? {
      QuietRecords(s, s1);
    } else {
      var s2 := s1.(current := Some(LoopNext(st, true)));
      var s3 := SimpleStep(s2, post.value, trust);
      SimpleRecords(s2, post.value, trust);
      Before(s, s2, s3, HeldInit(post), true) by { Redirect(s, s1, s2); }
      After(s, s3, Ensure(s3), HeldInit(post), true) by { EnsureQuiet(s3); }
      After(s, Ensure(s3), LoopPost(st, post, s, trust), HeldInit(post), true) by {
        JumpQuiet(Ensure(s3), LoopHeader(st), LoopBack);
      }
    }
  }

  lemma Redirect(st: State, s: State, t: State)
    requires Quiet(st, s) && t.blocks == s.blocks && t.sites == s.sites
    ensures Quiet(st, t)
  {}

  lemma EnsureQuiet(st: State)
    requires Inv(st)
    ensures Quiet(st, Ensure(st))
  {
    hide BlocksOk;
  }

  lemma LoopDoneQuiet(st: State, s: State)
    requires Inv(st) && Inv(s) && LoopFirst(st) + 1 < |s.blocks| && st.frames <= s.frames
    ensures Quiet(s, LoopDone(st, s))
  {
    hide BlocksOk;
  }

  // Statements after a fallthrough are dropped, and their calls with them.
  lemma {:induction false} CaseRecords(st: State, body: seq<Stmt>, trust: Instr -> bool, mayFall: bool)
    requires Inv(st)
    ensures Records(st, CompileCase(st, body, trust).0, HeldIn(body), FallsPlacedInClause(body, mayFall))
    decreases body, 0
  {
    hide BlocksOk, Records, Compile;
    var p, r := FallsPlacedInClause(body, mayFall), CompileCase(st, body, trust).0;
    if body == [] {
      Still(st, true);
    } else if body[0].FallthroughStmt? {
      Still(st, true);
      Dropped(st, HeldIn(body), p) by {
        if p {
          OnlyFall(body, mayFall);
          assert HeldBy(body[0]) == {} && HeldIn(body[1..]) == {};
        }
      }
    } else {
      var s := Compile(st, body[0], NO_LABEL, trust);
      CompileRecords(st, body[0], NO_LABEL, trust);
      CaseRecords(s, body[1..], trust, mayFall);
      if p { FirstPlaced(body, mayFall); }
      Weaken(st, s, HeldBy(body[0]), FallsPlaced(body[0]), p);
      Weaken(s, r, HeldIn(body[1..]), FallsPlacedInClause(body[1..], mayFall), p);
      RecordsTrans(st, s, r, HeldBy(body[0]), HeldIn(body[1..]), HeldIn(body), p);
    }
  }

  lemma OnlyFall(body: seq<Stmt>, mayFall: bool)
    requires body != [] && body[0].FallthroughStmt? && FallsPlacedInClause(body, mayFall)
    ensures |body| == 1
  {}

  lemma Dropped(st: State, held: set<Held>, placed: bool)
    requires placed ==> held == {}
    ensures Records(st, st, held, placed)
  {}

  lemma FirstPlaced(body: seq<Stmt>, mayFall: bool)
    requires body != [] && !body[0].FallthroughStmt? && FallsPlacedInClause(body, mayFall)
    ensures FallsPlaced(body[0]) && FallsPlacedInClause(body[1..], mayFall)
  {
    assert Falls(body) ==> Falls(body[1..]);
    forall i | 0 <= i < |body[1..]| && !(Falls(body[1..]) && i == |body[1..]| - 1) ensures FallsPlaced(body[1..][i]) {
      assert body[1..][i] == body[i + 1];
    }
  }

  lemma SwitchRecords(st: State, clauses: seq<Clause>, l: Label, trust: Instr -> bool)
    requires Inv(st)
    ensures Records(st, CompileSwitch(st, clauses, l, trust), HeldInClauses(clauses, |clauses|),
      FallsPlaced(Switch(None, clauses)))
    decreases clauses, |clauses|, 1
  {
    hide BlocksOk, Records, Quiet, SwitchAt;
    var n, e := |clauses|, SwitchAt(st, clauses, |clauses|, l, trust);
    SwitchAtRecords(st, clauses, n, l, trust);
    After(st, e, MultiDone(st, e), HeldInClauses(clauses, n), FallsPlaced(Switch(None, clauses))) by {
      MultiQuiet(st, e);
    }
  }

  lemma SwitchAtRecords(st: State, clauses: seq<Clause>, n: nat, l: Label, trust: Instr -> bool)
    requires Inv(st) && n <= |clauses|
    ensures Records(st, SwitchAt(st, clauses, n, l, trust), HeldInClauses(clauses, n),
      FallsPlaced(Switch(None, clauses)))
    decreases clauses, n, 0
  {
    hide BlocksOk, Records, Quiet, SwitchStart, SwitchEnter, SwitchLeave, CompileCase;
    var p := FallsPlaced(Switch(None, clauses));
    if n == 0 {
      Still(st, p);
      After(st, st, SwitchStart(st, clauses, l), {}, p) by { SwitchStartQuiet(st, clauses, l); }
    } else {
      var i := n - 1;
      var s0 := SwitchAt(st, clauses, i, l, trust);
      var s1 := SwitchEnter(st, i, s0);
      var s2 := CompileCase(s1, clauses[i].body, trust);
      SwitchAtRecords(st, clauses, i, l, trust);
      After(st, s0, s1, HeldInClauses(clauses, i), p) by { SwitchEnterQuiet(st, i, s0); }
      CaseRecords(s1, clauses[i].body, trust, n < |clauses|);
      Weaken(s1, s2.0, HeldIn(clauses[i].body), FallsPlacedInClause(clauses[i].body, n < |clauses|), p);
      RecordsTrans(st, s1, s2.0, HeldInClauses(clauses, i), HeldIn(clauses[i].body), HeldInClauses(clauses, n), p);
      After(st, s2.0, SwitchLeave(st, |clauses|, i, s2.0, s2.1), HeldInClauses(clauses, n), p) by {
        SwitchLeaveQuiet(st, |clauses|, i, s2.0, s2.1);
      }
    }
  }

  lemma SwitchStartQuiet(st: State, clauses: seq<Clause>, l: Label)
    requires Inv(st)
    ensures Quiet(st, SwitchStart(st, clauses, l))
  {
    hide BlocksOk, NewBlocks;
    NewBlocksQuiet(NewBlock(Ensure(st)), |clauses|);
  }

  lemma SwitchEnterQuiet(st: State, i: nat, s: State)
    requires Inv(st) && Inv(s) && SwitchBlock(st, i) < |s.blocks|
    ensures Quiet(s, SwitchEnter(st, i, s))
  {
    hide BlocksOk;
  }

  lemma SwitchLeaveQuiet(st: State, n: nat, i: nat, s: State, falls: bool)
    requires Inv(st) && Inv(s) && i < n && SwitchBlock(st, n) <= |s.blocks|
    ensures Quiet(s, SwitchLeave(st, n, i, s, falls))
  {
    hide BlocksOk;
  }

  lemma MultiQuiet(st: State, s: State)
    requires Inv(st) && Inv(s) && Settled(st) < |s.blocks| && st.frames <= s.frames
    ensures Quiet(s, MultiDone(st, s))
  {
    hide BlocksOk;
  }

  lemma SelectRecords(st: State, clauses: seq<Clause>, l: Label, trust: Instr -> bool)
    requires Inv(st)
    ensures Records(st, CompileSelect(st, clauses, l, trust), HeldInClauses(clauses, |clauses|),
      FallsPlaced(Select(clauses)))
    decreases clauses, |clauses|, 1
  {
    hide BlocksOk, Records, Quiet, SelectAt;
    var n, e := |clauses|, SelectAt(st, clauses, |clauses|, l, trust);
    SelectAtRecords(st, clauses, n, l, trust);
    After(st, e, MultiDone(st, e), HeldInClauses(clauses, n), FallsPlaced(Select(clauses))) by { MultiQuiet(st, e); }
  }

  lemma SelectAtRecords(st: State, clauses: seq<Clause>, n: nat, l: Label, trust: Instr -> bool)
    requires Inv(st) && n <= |clauses|
    ensures Records(st, SelectAt(st, clauses, n, l, trust), HeldInClauses(clauses, n), FallsPlaced(Select(clauses)))
    decreases clauses, n, 0
  {
    hide BlocksOk, Records, Quiet, SelectStart, SelectEnter, SelectLeave, CompileList;
    var p := FallsPlaced(Select(clauses));
    if n == 0 {
      Still(st, p);
      After(st, st, SelectStart(st, l), {}, p) by { SelectStartQuiet(st, l); }
    } else {
      var i := n - 1;
      var s0 := SelectAt(st, clauses, i, l, trust);
      var s1 := SelectEnter(st, s0);
      var s2 := CompileList(s1, clauses[i].body, trust);
      SelectAtRecords(st, clauses, i, l, trust);
      After(st, s0, s1, HeldInClauses(clauses, i), p) by { SelectEnterQuiet(st, s0); }
      ListRecords(s1, clauses[i].body, trust);
      if p { assert FallsPlacedInClause(clauses[i].body, false); }
      Weaken(s1, s2, HeldIn(clauses[i].body), FallsPlacedIn(clauses[i].body), p);
      RecordsTrans(st, s1, s2, HeldInClauses(clauses, i), HeldIn(clauses[i].body), HeldInClauses(clauses, n), p);
      After(st, s2, SelectLeave(st, s2), HeldInClauses(clauses, n), p) by { SelectLeaveQuiet(st, s2); }
    }
  }

  lemma SelectStartQuiet(st: State, l: Label)
    requires Inv(st)
    ensures Quiet(st, SelectStart(st, l))
  {
    hide BlocksOk;
  }

  lemma SelectEnterQuiet(st: State, s: State)
    requires Inv(st) && Inv(s) && Settled(st) < |s.blocks|
    ensures Quiet(s, SelectEnter(st, s))
  {
    hide BlocksOk;
  }

  lemma SelectLeaveQuiet(st: State, s: State)
    requires Inv(st) && Inv(s) && Settled(st) < |s.blocks|
    ensures Quiet(s, SelectLeave(st, s))
  {
    hide BlocksOk;
  }

  /****** Whole bodies ******/

  lemma {:induction false} AllocateQuiet(st: State, ls: seq<Label>)
    requires Inv(st)
    ensures Quiet(st, AllocateLabels(st, ls))
    decreases ls
  {
    hide BlocksOk;
    if ls != [] {
      var s := NewBlock(st);
      AllocateQuiet(s.(labels := s.labels[ls[0] := |st.blocks|]), ls[1..]);
    }
  }

  // Every recorded site names a block and an index at which the graph holds the very
  // instruction its call's statement became, and launches are marked; with fallthroughs
  // in their place no call is missed.
  lemma CallSitesCorrect(body: seq<Stmt>, trust: Instr -> bool)
    ensures var r := Build(body, trust);
      forall c :: c in r.sites ==>
        var site := r.sites[c];
        && site.block < |r.blocks| && site.index < |r.blocks[site.block].instrs|
        && Held(c, r.blocks[site.block].instrs[site.index], site.async) in HeldIn(body)
    ensures FallsPlacedIn(body) ==> forall h :: h in HeldIn(body) ==> h.call in Build(body, trust).sites
  {
    hide BlocksOk, Quiet, CompileList, AllocateLabels, JumpTo;
    var st, e := Begin(body), CompileList(Begin(body), body, trust);
    var f, p := Fresh(), FallsPlacedIn(body);
    ListRecords(st, body, trust);
    Before(f, st, e, HeldIn(body), p) by { AllocateQuiet(f, LabelsOfList(body)); }
    After(f, e, Build(body, trust), HeldIn(body), p) by { JumpQuiet(e, EXIT, Normal); }
    assert SitesOk(f, HeldIn(body));
    assert SitesOk(Build(body, trust), HeldIn(body));
  }

  /****** Index order is execution order ******/

  function Emitted(ids: seq<Instr>): seq<Event> {
    if ids == [] then [] else [Event.Emit(ids[0])] + Emitted(ids[1..])
  }

  ghost predicate EndsIn(events: seq<Event>, tail: seq<Event>) {
    exists before :: events == before + tail
  }

  // A walk that is at index j of a block has just run the block's instructions from any
  // earlier index i up to j, unless it started in between.
  lemma {:induction false} InOrder(g: CFG, at: Loc, events: seq<Event>, b: BlockId, i: nat, j: nat)
    requires b < |g.blocks| && i < j <= |g.blocks[b].instrs| && Walks(g, at, events, Loc(b, j))
    ensures var ids := g.blocks[b].instrs;
      || EndsIn(events, Emitted(ids[i..j]))
      || (at.block == b && i < at.index <= j && events == Emitted(ids[at.index..j]))
    decreases events
  {
    hide GraphMoves, Walks, Emitted, EndsIn;
    var ids := g.blocks[b].instrs;
    if events == [] {
      NoEvents(g, at, b, i, j);
    } else {
      var m := FirstStep(g, at, events, Loc(b, j));
      InOrder(g, m.next, events[1..], b, i, j);
      if EndsIn(events[1..], Emitted(ids[i..j])) {
        EndsInMore(events, Emitted(ids[i..j]));
      } else {
        MoveInside(g, at, m);
        EmittedStep(ids, at.index, j);
        assert events == [events[0]] + events[1..];
        if at.index == i { EndsInItself(events); }
      }
    }
  }

  lemma FirstStep(g: CFG, at: Loc, events: seq<Event>, to: Loc) returns (m: GraphMove)
    requires events != [] && Walks(g, at, events, to)
    ensures m in GraphMoves(g, at) && m.event == events[0] && Walks(g, m.next, events[1..], to)
  {
    hide GraphMoves;
    m :| m in GraphMoves(g, at) && m.event == events[0] && Walks(g, m.next, events[1..], to);
  }

  lemma NoEvents(g: CFG, at: Loc, b: BlockId, i: nat, j: nat)
    requires b < |g.blocks| && i < j <= |g.blocks[b].instrs| && Walks(g, at, [], Loc(b, j))
    ensures at == Loc(b, j) && Emitted(g.blocks[b].instrs[j..j]) == []
  {}

  lemma EndsInMore(events: seq<Event>, tail: seq<Event>)
    requires events != [] && EndsIn(events[1..], tail)
    ensures EndsIn(events, tail)
  {
    var before :| events[1..] == before + tail;
    assert events == ([events[0]] + before) + tail;
  }

  lemma EndsInItself(events: seq<Event>)
    ensures EndsIn(events, events)
  {
    assert events == [] + events;
  }

  lemma EmittedStep(ids: seq<Instr>, i: nat, j: nat)
    requires i < j <= |ids|
    ensures Emitted(ids[i..j]) == [Event.Emit(ids[i])] + Emitted(ids[i + 1..j])
  {
    assert ids[i..j][1..] == ids[i + 1..j];
  }

  // A move that does not start a block runs the instruction before it.
  lemma MoveInside(g: CFG, at: Loc, m: GraphMove)
    requires m in GraphMoves(g, at) && m.next.index > 0
    ensures at.block < |g.blocks| && at.index < |g.blocks[at.block].instrs|
    ensures m == GraphMove(Event.Emit(g.blocks[at.block].instrs[at.index]), Loc(at.block, at.index + 1))
  {
    EdgeMovesStart(g.blocks[at.block].succs);
  }

  lemma EdgeMovesStart(succs: seq<Edge>)
    ensures forall m :: m in EdgeMoves(succs) ==> m.next.index == 0
  {}
}
