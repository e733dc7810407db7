/**
 Which blocks a piece of compilation may touch, and that closed blocks stay as they are.

 These facts make the final graph agree, around every statement, with the builder's state
 at the moment that statement was compiled.
 */
module Closing {
  import opened Wrappers
  import opened Graph
  import opened Syntax
  import opened Building

  ghost predicate Same(st: State, r: State, b: BlockId) {
    b < |st.blocks| && b < |r.blocks| &&
    r.blocks[b].instrs == st.blocks[b].instrs && r.blocks[b].succs == st.blocks[b].succs
  }

  // Blocks outside X keep their contents and status; closed ones keep them wherever they are;
  // open ones only grow.
  ghost predicate Step(st: State, r: State, X: set<BlockId>) {
    && |st.blocks| <= |r.blocks| && r.labels == st.labels && OpenInRange(r)
    && (forall b :: 0 <= b < |st.blocks| && b !in X ==> Same(st, r, b) && (b in r.open <==> b in st.open))
    && (r.current.Some? && r.current.value < |st.blocks| ==> r.current.value in X)
    && Later(st, r)
  }

  ghost predicate Later(st: State, r: State) {
    && |st.blocks| <= |r.blocks|
    && (forall b :: 0 <= b < |st.blocks| ==> Onward(st, r, b))
  }

  ghost predicate Onward(st: State, r: State, b: BlockId) {
    && b < |st.blocks| && b < |r.blocks|
    && (b !in st.open ==> Same(st, r, b) && b !in r.open)
    && st.blocks[b].instrs <= r.blocks[b].instrs && st.blocks[b].succs <= r.blocks[b].succs
  }

  ghost predicate OpenInRange(st: State) {
    forall b :: b in st.open ==> b < |st.blocks|
  }

  // The current block can still be appended to and has no way out yet.
  ghost predicate Live(st: State) {
    st.current.Some? ==>
      st.current.value < |st.blocks| && st.current.value in st.open && st.blocks[st.current.value].succs == []
  }

  ghost predicate Untouched(st: State, b: BlockId) {
    b < |st.blocks| && b in st.open && st.blocks[b].instrs == [] && st.blocks[b].succs == []
  }

  ghost function Cur(st: State): set<BlockId> {
    if st.current.Some? then {st.current.value} else {}
  }

  ghost function LabelBlocks(st: State, ls: seq<Label>): set<BlockId> {
    set l | l in ls && l in st.labels :: st.labels[l]
  }

  ghost predicate Base(st: State) {
    Inv(st) && Live(st) && OpenInRange(st)
  }

  // st is about to compile code with these labels: each has its own untouched block.
  ghost predicate Ready(st: State, ls: seq<Label>) {
    && Base(st) && NoRepeats(ls)
    && (forall l :: l in ls ==> l in st.labels && Untouched(st, st.labels[l]) && st.current != Some(st.labels[l]))
    && (forall l, m :: l in st.labels && m in st.labels && l != m ==> st.labels[l] != st.labels[m])
  }

  ghost function Own(st: State, ls: seq<Label>): set<BlockId> {
    Cur(st) + LabelBlocks(st, ls)
  }

  // What compiling code with these labels from st does.
  ghost predicate Compiled(st: State, r: State, ls: seq<Label>) {
    Inv(r) && Live(r) && Step(st, r, Own(st, ls))
  }

  lemma StepTrans(st: State, r: State, t: State, X: set<BlockId>, Y: set<BlockId>)
    requires Step(st, r, X) && Step(r, t, Y)
    requires forall b :: b in Y && b < |st.blocks| ==> b in X
    ensures Step(st, t, X)
  {
    hide Same;
    forall b | 0 <= b < |st.blocks| && b !in X ensures Same(st, t, b) && (b in t.open <==> b in st.open) {
      assert Same(st, r, b) && Same(r, t, b);
      SameTrans(st, r, t, b);
    }
    LaterTrans(st, r, t);
  }

  lemma SameTrans(st: State, r: State, t: State, b: BlockId)
    requires Same(st, r, b) && Same(r, t, b)
    ensures Same(st, t, b)
  {}

  lemma LaterTrans(st: State, r: State, t: State)
    requires Later(st, r) && Later(r, t)
    ensures Later(st, t)
  {
    forall b | 0 <= b < |st.blocks| ensures Onward(st, t, b) {
      assert Onward(st, r, b) && Onward(r, t, b);
    }
  }

  lemma StepMore(st: State, r: State, X: set<BlockId>, Y: set<BlockId>)
    requires Step(st, r, X) && X <= Y
    ensures Step(st, r, Y)
  {}

  lemma LaterAt(st: State, r: State, b: BlockId)
    requires Later(st, r) && b < |st.blocks|
    ensures Onward(st, r, b)
  {}

  /****** Elementary steps ******/

  lemma NewBlockSteps(st: State)
    requires Inv(st) && OpenInRange(st)
    ensures Step(st, NewBlock(st).(current := None), {}) && Untouched(NewBlock(st), |st.blocks|)
    ensures st.current == None ==> Step(st, NewBlock(st), {})
  {
    hide BlocksOk;
  }

  lemma {:induction false} NewBlocksSteps(st: State, n: nat)
    requires Inv(st) && OpenInRange(st)
    ensures Step(st, NewBlocks(st, n).(current := None), {})
    ensures forall b :: |st.blocks| <= b < |st.blocks| + n ==> Untouched(NewBlocks(st, n), b)
    decreases n
  {
    hide BlocksOk;
    if n > 0 {
      NewBlocksSteps(st, n - 1);
      var p := NewBlocks(st, n - 1);
      assert NewBlocks(st, n) == NewBlock(p);
      forall b | |st.blocks| <= b < |st.blocks| + n ensures Untouched(NewBlock(p), b) {
        if b < |p.blocks| { assert Untouched(p, b); }
      }
    }
  }

  lemma AddEdgeSteps(st: State, from: BlockId, to: BlockId, kind: EdgeKind)
    requires Inv(st) && OpenInRange(st) && from < |st.blocks| && from != EXIT && Target(|st.blocks|, to)
      && from in st.open
    requires st.current.None? || st.current == Some(from)
    ensures Step(st, AddEdge(st, from, to, kind), {from})
    ensures AddEdge(st, from, to, kind).blocks[from].succs == st.blocks[from].succs + [Edge(from, to, kind)]
    ensures AddEdge(st, from, to, kind).blocks[from].instrs == st.blocks[from].instrs
  {
    hide BlocksOk;
  }

  lemma JumpSteps(st: State, to: BlockId, kind: EdgeKind)
    requires Base(st) && Target(|st.blocks|, to)
    ensures Step(st, JumpTo(st, to, kind), Cur(st)) && Live(JumpTo(st, to, kind))
    ensures st.current.Some? ==>
      EndsWith(JumpTo(st, to, kind), st.current.value, st.blocks[st.current.value].instrs,
        [Edge(st.current.value, to, kind)])
  {
    hide BlocksOk;
  }

  // Block b is closed with these instructions and edges.
  ghost predicate EndsWith(st: State, b: BlockId, instrs: seq<Instr>, succs: seq<Edge>) {
    b < |st.blocks| && b !in st.open && st.blocks[b].instrs == instrs && st.blocks[b].succs == succs
  }

  lemma EndsLater(st: State, r: State, b: BlockId, instrs: seq<Instr>, succs: seq<Edge>)
    requires EndsWith(st, b, instrs, succs) && Later(st, r)
    ensures EndsWith(r, b, instrs, succs)
  {
    assert Onward(st, r, b);
  }

  lemma AbandonSteps(st: State)
    requires Base(st)
    ensures Step(st, Abandon(st), Cur(st)) && Live(Abandon(st))
    ensures st.current.Some? ==> EndsWith(Abandon(st), st.current.value, st.blocks[st.current.value].instrs, [])
  {
    hide BlocksOk;
  }

  lemma EnsureSteps(st: State)
    requires Base(st)
    ensures Step(st, Ensure(st), Cur(st)) && Live(Ensure(st))
    ensures st.current.None? ==> Untouched(Ensure(st), Head(st))
  {
    hide BlocksOk;
  }

  lemma EmitSteps(st: State, id: Instr)
    requires Base(st)
    ensures Step(st, Emit(st, id), Cur(st)) && Live(Emit(st, id)) && Emit(st, id).current == Some(Head(st))
    ensures Emit(st, id).blocks[Head(st)].instrs == Ensure(st).blocks[Head(st)].instrs + [id]
  {
    hide BlocksOk;
    EnsureSteps(st);
  }

  lemma RecordSteps(st: State, call: CallId, async: bool)
    requires Base(st)
    ensures Step(st, Record(st, call, async), Cur(st)) && Live(Record(st, call, async))
    ensures Record(st, call, async).current == Some(Head(st)) && Record(st, call, async).blocks == Ensure(st).blocks
  {
    hide BlocksOk;
    EnsureSteps(st);
  }

  lemma {:induction false} RecordAllSteps(st: State, calls: seq<CallId>)
    requires Base(st)
    ensures Step(st, RecordAll(st, calls), Cur(st)) && Live(RecordAll(st, calls))
    ensures var r := RecordAll(st, calls);
      (r.current == st.current && r.blocks == st.blocks)
        || (r.current == Some(Head(st)) && r.blocks == Ensure(st).blocks)
    decreases calls
  {
    hide BlocksOk;
    if calls != [] {
      RecordSteps(st, calls[0], false);
      var s := Record(st, calls[0], false);
      RecordAllSteps(s, calls[1..]);
      StepTrans(st, s, RecordAll(st, calls), Cur(st), Cur(s));
    }
  }

  /****** Simple statements ******/

  ghost function Instrs(st: State): seq<Instr>
    requires Inv(st)
  {
    Ensure(st).blocks[Head(st)].instrs
  }

  // What a simple statement leaves behind, by kind.
  ghost predicate SimpleShape(st: State, x: Simple, trust: Instr -> bool, r: State)
    requires Inv(st)
  {
    var b, all := Head(st), Instrs(st) + [x.id];
    if x.panics then
      r.current == None && EndsWith(r, b, all, [Edge(b, EXIT, Panic)])
    else if trust(x.id) then
      r.current.Some? && Untouched(r, r.current.value) && b != r.current.value
      && EndsWith(r, b, all, [Edge(b, r.current.value, Normal), Edge(b, EXIT, TrustedStop)])
    else
      r.current == Some(b) && b < |r.blocks| && r.blocks[b].instrs == all
  }

  lemma SimpleSteps(st: State, x: Simple, trust: Instr -> bool)
    requires Base(st)
    ensures Compiled(st, SimpleStep(st, x, trust), []) && SimpleShape(st, x, trust, SimpleStep(st, x, trust))
  {
    hide BlocksOk, Step, Ensure;
    var s0 := RecordAll(st, x.calls);
    RecordAllSteps(st, x.calls);
    EnsureSteps(st);
    StepBase(st, s0, Cur(st));
    EmitSteps(s0, x.id);
    var s := Emit(s0, x.id);
    var r := SimpleStep(st, x, trust);
    StepTrans(st, s0, s, Cur(st), Cur(s0)) by { StepCurrent(st, s0, Cur(st)); }
    StepBase(s0, s, Cur(s0));
    if x.panics {
      JumpSteps(s, EXIT, Panic);
      StepTrans(st, s, r, Cur(st), Cur(s)) by { StepCurrent(st, s, Cur(st)); }
    } else if trust(x.id) {
      TrustedSteps(s);
      StepTrans(st, s, r, Cur(st), Cur(s)) by { StepCurrent(st, s, Cur(st)); }
    }
    StepMore(st, r, Cur(st), Own(st, []));
  }

  lemma StepBase(st: State, r: State, X: set<BlockId>)
    requires Step(st, r, X)
    ensures OpenInRange(r) && r.labels == st.labels && Later(st, r) && |st.blocks| <= |r.blocks|
  {}

  lemma StepCurrent(st: State, r: State, X: set<BlockId>)
    requires Step(st, r, X)
    ensures forall b :: b in Cur(r) && b < |st.blocks| ==> b in X
  {}

  lemma TrustedSteps(s: State)
    requires Base(s) && s.current.Some?
    ensures var b, next := s.current.value, |s.blocks|;
      var r := Close(AddEdge(AddEdge(NewBlock(s), b, next, Normal), b, EXIT, TrustedStop).(current := Some(next)), b);
      Step(s, r, {b}) && Live(r) && Untouched(r, next)
      && EndsWith(r, b, s.blocks[b].instrs, [Edge(b, next, Normal), Edge(b, EXIT, TrustedStop)])
  {
    hide BlocksOk;
  }

  /****** Sequencing ******/

  lemma ReadyFirst(st: State, ls: seq<Label>, ms: seq<Label>)
    requires Ready(st, ls + ms)
    ensures Ready(st, ls)
    ensures forall l, m :: l in ls && m in ms ==> l != m
  {
    hide Inv, Untouched;
    forall i, j | 0 <= i < |ls| && 0 <= j < |ms| ensures ls[i] != ms[j] {
      assert (ls + ms)[i] == ls[i] && (ls + ms)[|ls| + j] == ms[j];
    }
    forall i, j | 0 <= i < j < |ls| ensures ls[i] != ls[j] {
      assert (ls + ms)[i] == ls[i] && (ls + ms)[j] == ls[j];
    }
  }

  // Blocks outside X are where a step leaves them.
  lemma StepKeeps(st: State, r: State, X: set<BlockId>, b: BlockId)
    requires Step(st, r, X) && b < |st.blocks| && b !in X
    ensures Same(st, r, b) && (b in r.open <==> b in st.open) && r.current != Some(b)
    ensures Untouched(st, b) ==> Untouched(r, b)
  {}

  lemma ReadyAfter(st: State, r: State, X: set<BlockId>, ls: seq<Label>, ms: seq<Label>)
    requires Ready(st, ls + ms) && Step(st, r, X) && Base(r)
    requires forall l :: l in ms ==> st.labels[l] !in X
    ensures Ready(r, ms)
  {
    hide Inv;
    forall i, j | 0 <= i < j < |ms| ensures ms[i] != ms[j] {
      assert (ls + ms)[|ls| + i] == ms[i] && (ls + ms)[|ls| + j] == ms[j];
    }
    forall l | l in ms ensures Untouched(r, r.labels[l]) && r.current != Some(r.labels[l]) {
      assert l in ls + ms;
      StepKeeps(st, r, X, st.labels[l]);
    }
  }

  lemma NotOwn(st: State, ls: seq<Label>, ms: seq<Label>)
    requires Ready(st, ls + ms)
    ensures forall l :: l in ms ==> l in st.labels && st.labels[l] !in Own(st, ls)
  {
    hide Inv, Untouched, NoRepeats;
    ReadyFirst(st, ls, ms);
    forall l | l in ms ensures l in st.labels && st.labels[l] !in Own(st, ls) {
      assert l in ls + ms;
    }
  }

  lemma ReadyNext(st: State, r: State, ls: seq<Label>, ms: seq<Label>)
    requires Ready(st, ls + ms) && Compiled(st, r, ls)
    ensures Ready(r, ms)
  {
    hide Inv, Untouched;
    NotOwn(st, ls, ms);
    ReadyAfter(st, r, Own(st, ls), ls, ms);
  }

  lemma CompiledTrans(st: State, r: State, t: State, ls: seq<Label>, ms: seq<Label>)
    requires Ready(st, ls + ms) && Compiled(st, r, ls) && Compiled(r, t, ms)
    ensures Compiled(st, t, ls + ms)
  {
    hide Inv, Untouched;
    StepMore(st, r, Own(st, ls), Own(st, ls + ms));
    StepTrans(st, r, t, Own(st, ls + ms), Own(r, ms));
  }

  lemma EnterLabelSteps(st: State, m: Label, ls: seq<Label>)
    requires Ready(st, [m] + ls)
    ensures var r, t := EnterLabel(st, m), st.labels[m];
      Step(st, r, Own(st, [m])) && Ready(r, ls) && r.current == Some(t) && Untouched(r, t)
      && (st.current.Some? ==>
        EndsWith(r, st.current.value, st.blocks[st.current.value].instrs, [Edge(st.current.value, t, Normal)]))
  {
    hide BlocksOk, Step;
    assert m in [m] + ls;
    var r, t := EnterLabel(st, m), st.labels[m];
    var s := JumpTo(st, t, Normal);
    JumpSteps(st, t, Normal);
    StepMore(st, s, Cur(st), Own(st, [m]));
    StepKeeps(st, s, Cur(st), t);
    SetCurrent(st, s, Own(st, [m]), t);
    NotOwn(st, [m], ls);
    ReadyAfter(st, r, Own(st, [m]), [m], ls);
  }

  // Making an allowed block current changes nothing else.
  lemma SetCurrent(st: State, s: State, X: set<BlockId>, b: BlockId)
    requires Step(st, s, X) && (b < |st.blocks| ==> b in X)
    ensures Step(st, s.(current := Some(b)), X) && OpenInRange(s)
  {
    forall c | 0 <= c < |st.blocks| ensures Onward(st, s.(current := Some(b)), c) {
      assert Onward(st, s, c);
    }
  }

  /****** if ******/

  ghost function CondEdges(cond: Cond, c: BlockId, t: BlockId, e: BlockId): seq<Edge> {
    (if Allows(cond, true) then [Edge(c, t, IfTrue)] else []) +
      (if Allows(cond, false) then [Edge(c, e, IfFalse)] else [])
  }

  lemma IfThenSteps(st: State, cond: Cond, ls: seq<Label>)
    requires Ready(st, ls)
    ensures var s, c := IfThen(st, cond), Head(st);
      && Ready(s, ls) && Step(st, s, Cur(st)) && s.current == Some(Settled(st))
      && Untouched(s, Settled(st)) && Untouched(s, Settled(st) + 1)
      && c < |s.blocks| && c in s.open && s.blocks[c].instrs == Instrs(st)
      && s.blocks[c].succs == (if Allows(cond, true) then [Edge(c, Settled(st), IfTrue)] else [])
  {
    hide BlocksOk;
    IfThenFrame(st, cond);
    assert forall l :: l in ls ==> st.labels[l] !in Cur(st);
    ReadyAfter(st, IfThen(st, cond), Cur(st), [], ls) by { assert [] + ls == ls; }
  }

  lemma IfThenFrame(st: State, cond: Cond)
    requires Base(st)
    ensures var s, c := IfThen(st, cond), Head(st);
      && Step(st, s, Cur(st)) && Base(s)
      && Untouched(s, Settled(st)) && Untouched(s, Settled(st) + 1)
      && c < |s.blocks| && c in s.open && s.blocks[c].instrs == Instrs(st)
      && s.blocks[c].succs == (if Allows(cond, true) then [Edge(c, Settled(st), IfTrue)] else [])
  {
    hide BlocksOk, Step, Inv;
    IfThenStep(st, cond);
  }

  lemma IfThenStep(st: State, cond: Cond)
    requires Base(st)
    ensures Step(st, IfThen(st, cond), Cur(st)) && Base(IfThen(st, cond))
  {
    hide BlocksOk, Step, Ensure, Same;
    var c, t := Head(st), Settled(st);
    EnsureSteps(st);
    var e := Ensure(st);
    StepBase(st, e, Cur(st));
    TwoBlocks(e);
    NewBlocksSteps(e, 2);
    var s := NewBlock(NewBlock(e)).(current := None);
    StepBase(e, s, {});
    StepKeeps(e, s, {}, c);
    StepTrans(st, e, s, Cur(st), {});
    assert Untouched(NewBlocks(e, 2), t);
    var u := s;
    if Allows(cond, true) {
      AddEdgeSteps(s, c, t, IfTrue);
      u := AddEdge(s, c, t, IfTrue);
      StepTrans(st, s, u, Cur(st), {c}) by { HeadIsNew(st); }
      StepBase(s, u, {c});
      StepKeeps(s, u, {c}, t);
    }
    SetCurrent(st, u, Cur(st), t);
    assert IfThen(st, cond) == u.(current := Some(t));
  }

  lemma TwoBlocks(e: State)
    requires Inv(e)
    ensures NewBlocks(e, 2) == NewBlock(NewBlock(e))
  {
    hide BlocksOk, NewBlock;
    assert NewBlocks(e, 0) == e;
    assert NewBlocks(e, 1) == NewBlock(e);
  }

  lemma HeadIsNew(st: State)
    ensures Head(st) < |st.blocks| ==> Head(st) in Cur(st)
  {}

  // A block allocated but not current while ls is compiled keeps its state.
  lemma Bystander(t: State, s: State, ls: seq<Label>, b: BlockId)
    requires Ready(t, ls) && Compiled(t, s, ls) && b < |t.blocks| && b !in Own(t, ls)
    ensures Same(t, s, b) && (b in s.open <==> b in t.open) && s.current != Some(b)
    ensures Untouched(t, b) ==> Untouched(s, b)
    ensures Later(t, s) && OpenInRange(s) && Base(s) && s.labels == t.labels && |t.blocks| <= |s.blocks|
  {
    hide Inv;
  }

  // s: after the then branch.
  lemma ThenDone(st: State, cond: Cond, s: State, ls: seq<Label>)
    requires Ready(st, ls) && Compiled(IfThen(st, cond), s, ls) && Extends(IfThen(st, cond), s)
    ensures var c, after := Head(st), Settled(st) + 1;
      after < |s.blocks| && EXIT < after
    ensures var c, after := Head(st), Settled(st) + 1;
      var s1 := JumpTo(s, after, Normal);
      && Base(s) && Base(s1) && Step(st, s1, Own(st, ls)) && Later(s, s1) && Waiting(st, cond, s1)
      && (s.current.Some? ==>
        EndsWith(s1, s.current.value, s.blocks[s.current.value].instrs, [Edge(s.current.value, after, Normal)]))
  {
    hide BlocksOk, Step, IfThen, Ensure, NoRepeats, JumpTo;
    var t := IfThen(st, cond);
    var c, after := Head(st), Settled(st) + 1;
    IfThenSteps(st, cond, ls);
    AboveLabels(st, ls);
    StepBase(st, t, Cur(st));
    Bystander(t, s, ls, after);
    Bystander(t, s, ls, c);
    JumpSteps(s, after, Normal);
    var s1 := JumpTo(s, after, Normal);
    StepKeeps(s, s1, Cur(s), after);
    StepKeeps(s, s1, Cur(s), c);
    StepBase(s, s1, Cur(s));
    StepMore(st, t, Cur(st), Own(st, ls));
    StepTrans(st, t, s, Own(st, ls), Own(t, ls));
    StepTrans(st, s, s1, Own(st, ls), Cur(s)) by { StepCurrent(st, s, Own(st, ls)); }
  }

  lemma IfElseSteps(st: State, cond: Cond, s: State, hasElse: bool, ls: seq<Label>, ms: seq<Label>)
    requires Ready(st, ls + ms) && Compiled(IfThen(st, cond), s, ls) && Extends(IfThen(st, cond), s)
    ensures var r, c, after := IfElse(st, cond, s, hasElse), Head(st), Settled(st) + 1;
      && Step(st, r, Own(st, ls)) && Later(s, r) && Ready(r, ms) && Base(r)
      && (s.current.Some? ==>
        EndsWith(r, s.current.value, s.blocks[s.current.value].instrs, [Edge(s.current.value, after, Normal)]))
      && r.current == Some(if hasElse then |s.blocks| else after) && Untouched(r, r.current.value)
      && EndsWith(r, c, Instrs(st), CondEdges(cond, c, Settled(st), r.current.value))
      && (hasElse ==> Untouched(r, after) && after !in Own(r, ms))
  {
    hide BlocksOk, Step, IfElse, IfThen, Ensure, NoRepeats, JumpTo, Same, Waiting, ElseEntered;
    var c, after := Head(st), Settled(st) + 1;
    ReadyFirst(st, ls, ms);
    ThenDone(st, cond, s, ls);
    var s1 := JumpTo(s, after, Normal);
    var r := IfElse(st, cond, s, hasElse);
    IfElseFrame(st, cond, s, hasElse);
    ElseFacts(st, cond, r, if hasElse then |s.blocks| else after);
    StepBase(s1, r, {c, after});
    LaterTrans(s, s1, r);
    if s.current.Some? {
      EndsLater(s1, r, s.current.value, s.blocks[s.current.value].instrs, [Edge(s.current.value, after, Normal)]);
    }
    StepTrans(st, s1, r, Own(st, ls), {c, after});
    NotOwn(st, ls, ms);
    AboveLabels(st, ls);
    ReadyAfter(st, r, Own(st, ls), ls, ms);
    StepBase(st, r, Own(st, ls));
    AboveFirst(st, ls, ms);
  }

  lemma AboveFirst(st: State, ls: seq<Label>, ms: seq<Label>)
    requires Ready(st, ls + ms)
    ensures forall m :: m in ms ==> m in st.labels && st.labels[m] < |st.blocks|
  {
    hide Inv, NoRepeats;
    forall m | m in ms ensures m in st.labels && st.labels[m] < |st.blocks| { assert m in ls + ms; }
  }

  // Label blocks exist from the start: they are below every block allocated later.
  lemma AboveLabels(st: State, ls: seq<Label>)
    requires Ready(st, ls)
    ensures forall b :: b in LabelBlocks(st, ls) ==> b < |st.blocks| && st.current != Some(b) && Untouched(st, b)
  {}

  // The branch is over, the block after the statement waits, and so does the condition's.
  ghost predicate Waiting(st: State, cond: Cond, s1: State)
    requires Inv(st)
  {
    var c, after := Head(st), Settled(st) + 1;
    && OpenInRange(s1) && Untouched(s1, after) && c < |s1.blocks| && c in s1.open && c != after
    && s1.blocks[c].instrs == Instrs(st)
    && s1.blocks[c].succs == (if Allows(cond, true) then [Edge(c, Settled(st), IfTrue)] else [])
  }

  // e: the block entered when the condition is false.
  ghost predicate ElseEntered(st: State, cond: Cond, r: State, e: BlockId)
    requires Inv(st)
  {
    && Live(r) && Inv(r) && r.current == Some(e) && Untouched(r, e)
    && EndsWith(r, Head(st), Instrs(st), CondEdges(cond, Head(st), Settled(st), e))
    && (e != Settled(st) + 1 ==> Untouched(r, Settled(st) + 1))
  }

  lemma ElseFacts(st: State, cond: Cond, r: State, e: BlockId)
    requires Inv(st) && ElseEntered(st, cond, r, e)
    ensures Live(r) && Inv(r) && r.current == Some(e) && Untouched(r, e)
    ensures EndsWith(r, Head(st), Instrs(st), CondEdges(cond, Head(st), Settled(st), e))
    ensures e != Settled(st) + 1 ==> Untouched(r, Settled(st) + 1)
  {}

  lemma IfElseFrame(st: State, cond: Cond, s: State, hasElse: bool)
    requires Inv(st) && Base(s) && Extends(IfThen(st, cond), s) && Waiting(st, cond, JumpTo(s, Settled(st) + 1, Normal))
    ensures Step(JumpTo(s, Settled(st) + 1, Normal), IfElse(st, cond, s, hasElse), {Head(st), Settled(st) + 1})
    ensures ElseEntered(st, cond, IfElse(st, cond, s, hasElse), if hasElse then |s.blocks| else Settled(st) + 1)
  {
    hide BlocksOk, JumpTo, IfThen, Instrs, Ensure, Step, Base, IfElse, Live, Inv, EndsWith, Untouched, ElseEntered;
    IfElseStep(st, cond, s, hasElse);
    IfElseEnds(st, cond, s, hasElse);
  }

  lemma IfElseEnds(st: State, cond: Cond, s: State, hasElse: bool)
    requires Inv(st) && Base(s) && Extends(IfThen(st, cond), s) && Waiting(st, cond, JumpTo(s, Settled(st) + 1, Normal))
    ensures ElseEntered(st, cond, IfElse(st, cond, s, hasElse), if hasElse then |s.blocks| else Settled(st) + 1)
  {
    hide BlocksOk, JumpTo, IfThen, Instrs, Ensure, Step;
  }

  lemma IfElseStep(st: State, cond: Cond, s: State, hasElse: bool)
    requires Inv(st) && Base(s) && Extends(IfThen(st, cond), s) && Waiting(st, cond, JumpTo(s, Settled(st) + 1, Normal))
    ensures Step(JumpTo(s, Settled(st) + 1, Normal), IfElse(st, cond, s, hasElse), {Head(st), Settled(st) + 1})
  {
    hide BlocksOk, JumpTo, IfThen, Instrs, Ensure, Step, NewBlock, AddEdge;
    var c, after := Head(st), Settled(st) + 1;
    var s1 := JumpTo(s, after, Normal);
    var X := {c, after};
    NewBlockSteps(s1);
    var s2 := if hasElse then NewBlock(s1) else s1;
    var e := if hasElse then |s1.blocks| else after;
    Nothing(s1, X);
    if hasElse { StepMore(s1, s2, {}, X); StepBase(s1, s2, X); StepKeeps(s1, s2, {}, c); }
    var u := s2;
    if Allows(cond, false) {
      AddEdgeSteps(s2, c, e, IfFalse);
      u := AddEdge(s2, c, e, IfFalse);
      StepTrans(s1, s2, u, X, {c});
      StepBase(s2, u, {c});
      OpenStays(s2, u);
    }
    SetCurrent(s1, u, X, e);
    CloseOne(s1, u.(current := Some(e)), X, c);
  }

  lemma Nothing(s: State, X: set<BlockId>)
    requires OpenInRange(s) && s.current.None?
    ensures Step(s, s, X)
  {}

  lemma OpenStays(s: State, u: State)
    requires u.open == s.open
    ensures forall b :: b in s.open <==> b in u.open
  {}

  // Closing an allowed block.
  lemma CloseOne(s: State, u: State, X: set<BlockId>, c: BlockId)
    requires Step(s, u, X) && c in X && c in u.open && c < |s.blocks| && c in s.open
    ensures Step(s, Close(u, c), X)
  {
    forall b | 0 <= b < |s.blocks| ensures Onward(s, Close(u, c), b) { assert Onward(s, u, b); }
  }
}
