/**
 What the builder's graph means: its walks are the body's executions.
 */
module Correctness {
  import opened Wrappers
  import opened Graph
  import opened Syntax
  import opened Semantics
  import opened Building
  import opened Closing
  import opened Shapes
  import opened Steps
  import opened Simulation
  import opened Bisimulation

  // Some walk of the graph leads from one place to another and shows these events.
  ghost predicate Walks(g: CFG, at: Loc, events: seq<Event>, to: Loc)
    decreases events
  {
    if events == [] then at == to
    else exists m :: m in GraphMoves(g, at) && m.event == events[0] && Walks(g, m.next, events[1..], to)
  }

  const BEGINNING := Loc(ENTRY, 0)
  const END := Loc(EXIT, 0)

  ghost function GraphFor(body: seq<Stmt>, trust: Instr -> bool): CFG {
    GraphOf(Build(body, trust))
  }

  ghost function WorldFor(body: seq<Stmt>, trust: Instr -> bool): World {
    World(Build(body, trust), body, trust)
  }

  /****** The finished graph anchors the whole body ******/

  // Allocation gives each label a block of its own.
  ghost predicate Allocated(st: State, done: seq<Label>) {
    && Base(st) && st.current == Some(ENTRY) && st.frames == []
    && EXIT !in st.open && st.blocks[EXIT].instrs == [] && st.blocks[ENTRY].instrs == []
    && (forall l :: l in st.labels <==> l in done)
    && (forall l :: l in st.labels ==> EXIT < st.labels[l] && Untouched(st, st.labels[l]))
    && (forall l, m :: l in st.labels && m in st.labels && l != m ==> st.labels[l] != st.labels[m])
  }

  lemma {:induction false} AllocateReady(st: State, done: seq<Label>, ls: seq<Label>)
    requires Allocated(st, done) && NoRepeats(done + ls)
    ensures Allocated(AllocateLabels(st, ls), done + ls)
    decreases ls
  {
    hide BlocksOk;
    if ls == [] {
      assert done + ls == done;
    } else {
      var s := NewBlock(st);
      var t := s.(labels := s.labels[ls[0] := |st.blocks|]);
      assert done + ls == (done + [ls[0]]) + ls[1..];
      assert ls[0] !in done by {
        forall i | 0 <= i < |done| ensures done[i] != ls[0] { assert (done + ls)[i] != (done + ls)[|done|]; }
      }
      AllocateOne(st, done, ls[0]);
      AllocateReady(t, done + [ls[0]], ls[1..]);
    }
  }

  lemma AllocateOne(st: State, done: seq<Label>, l: Label)
    requires Allocated(st, done) && l !in done
    ensures var s := NewBlock(st);
      Allocated(s.(labels := s.labels[l := |st.blocks|]), done + [l])
  {
    hide BlocksOk;
    var s := NewBlock(st);
    assert forall b :: 0 <= b < |st.blocks| ==> s.blocks[b] == st.blocks[b];
  }

  lemma BeginReady(body: seq<Stmt>)
    requires NoRepeats(LabelsOfList(body))
    ensures Ready(Begin(body), LabelsOfList(body)) && Allocated(Begin(body), LabelsOfList(body))
  {
    hide BlocksOk;
    var ls := LabelsOfList(body);
    assert Allocated(Fresh(), []);
    assert [] + ls == ls;
    AllocateReady(Fresh(), [], ls);
  }

  lemma Anchors(body: seq<Stmt>, trust: Instr -> bool) returns (root: Anchored)
    requires WellFormed(body)
    ensures var w := WorldFor(body, trust);
      Finished(w) && Good(w, root) && Tail(root) == [] && Erase(root) == Start(body)
        && Entry(w, root) == Some(BEGINNING)
  {
    hide BlocksOk, CompileList, JumpTo, NoRepeats, Ready, Step, Untouched;
    var w, st := WorldFor(body, trust), Begin(body);
    BeginReady(body);
    ListSteps(st, body, trust);
    var e := CompileList(st, body, trust);
    CompiledBase(st, e, LabelsOfList(body));
    JumpSteps(e, EXIT, Normal);
    StepBase(e, w.F, Cur(e));
    LaterOf(st, e, LabelsOfList(body));
    LabelsOf(st, e, LabelsOfList(body));
    LaterTrans(st, e, w.F);
    LaterAt(st, w.F, EXIT);
    EndIsAt(e, w.F, EXIT, Normal);
    root := ASeq(st, body, ALeave(Normal, e.current));
    MakeSeq(w, st, body, ALeave(Normal, e.current)) by { LeaveEntry(w, e.current); }
    assert body + [] == body;
    assert Root(w, root);
  }

  lemma LeaveEntry(w: World, from: Option<BlockId>)
    ensures Entry(w, ALeave(Normal, from)) == EndOf(w.F, from) && FramesOf(ALeave(Normal, from)) == []
  {}

  /****** Executions and walks ******/

  // From matching points, every execution has its walk ...
  lemma {:induction false} ExecutionWalks(w: World, k: Anchored, at: Loc, events: seq<Event>, d: Kont)
    returns (k': Anchored)
    requires Finished(w) && Good(w, k) && Tail(k) == [] && Entry(w, k) == Some(at)
    requires Executes(w.trust, w.body, Erase(k), events, d)
    ensures Good(w, k') && Tail(k') == [] && Erase(k') == d && Entry(w, k').Some?
    ensures Walks(GraphOf(w.F), at, events, Entry(w, k').value)
    decreases events
  {
    hide Good, Entry, Erase, Finished, Moves, GraphMoves, Tail;
    if events == [] {
      k' := k;
    } else {
      var r := FocusGood(w, k);
      var next := AllMoves(w, r);
      var ms, gs := Moves(w.trust, w.body, Focus(Erase(k))), GraphMoves(GraphOf(w.F), at);
      var m :| m in ms && m.event == events[0] && Executes(w.trust, w.body, m.next, events[1..], d);
      var j :| 0 <= j < |ms| && ms[j] == m;
      assert MoveMatches(w, ms[j], gs[j], next[j]);
      k' := ExecutionWalks(w, next[j], gs[j].next, events[1..], d);
      assert gs[j] in gs;
    }
  }

  // ... and every walk its execution.
  lemma {:induction false} WalkExecutes(w: World, k: Anchored, at: Loc, events: seq<Event>, to: Loc)
    returns (k': Anchored)
    requires Finished(w) && Good(w, k) && Tail(k) == [] && Entry(w, k) == Some(at)
    requires Walks(GraphOf(w.F), at, events, to)
    ensures Good(w, k') && Tail(k') == [] && Entry(w, k') == Some(to)
    ensures Executes(w.trust, w.body, Erase(k), events, Erase(k'))
    decreases events
  {
    hide Good, Entry, Erase, Finished, Moves, GraphMoves, Tail;
    if events == [] {
      k' := k;
    } else {
      var r := FocusGood(w, k);
      var next := AllMoves(w, r);
      var ms, gs := Moves(w.trust, w.body, Focus(Erase(k))), GraphMoves(GraphOf(w.F), at);
      var gm :| gm in gs && gm.event == events[0] && Walks(GraphOf(w.F), gm.next, events[1..], to);
      var j :| 0 <= j < |gs| && gs[j] == gm;
      assert MoveMatches(w, ms[j], gs[j], next[j]);
      k' := WalkExecutes(w, next[j], gm.next, events[1..], to);
      assert ms[j] in ms;
    }
  }

  // Only the finished machine is at the exit.
  lemma DoneIsEnd(w: World, k: Anchored)
    requires Good(w, k) && Entry(w, k).Some?
    ensures Erase(k) == Done <==> Entry(w, k) == Some(END)
  {
    hide BlocksOk, Later, Compile, CompileList, LoopBody, SimpleStep, PostStart, CaseStart, Ready, CaseList;
    match k {
      case ARun(st, s, _, _) => ReadyBase(st, Labels(s));
      case ASeq(st, list, _) => ReadyBase(st, LabelsOfList(list));
      case ALoop(st, s, _, _) => ReadyBase(st, Labels(s));
      case ABack(st, s, _, _) => ReadyBase(st, Labels(s));
      case ATest(st, s, _, _) => ReadyBase(st, Labels(s));
      case AClause(st, s, _, _, _) => ReadyBase(st, Labels(s));
      case AFall(_, k1) => DoneIsEnd(w, k1);
      case _ =>
    }
  }

  // The compiler theorem.  A body's executions show exactly the event sequences of the
  // graph's walks from the entry; it ends, in the same way, exactly when the walk is at
  // the exit.
  lemma CompilerCorrect(body: seq<Stmt>, trust: Instr -> bool, events: seq<Event>)
    requires WellFormed(body)
    ensures var g := GraphFor(body, trust);
      && ((exists d :: Executes(trust, body, Start(body), events, d)) <==>
        (exists to :: Walks(g, BEGINNING, events, to)))
      && (Executes(trust, body, Start(body), events, Done) <==> Walks(g, BEGINNING, events, END))
  {
    hide Good, Entry, Erase, Finished, Tail, Executes, Walks, Build;
    var w, g := WorldFor(body, trust), GraphFor(body, trust);
    var root := Anchors(body, trust);
    if d :| Executes(trust, body, Start(body), events, d) {
      var k := ExecutionWalks(w, root, BEGINNING, events, d);
    }
    if to :| Walks(g, BEGINNING, events, to) {
      var k := WalkExecutes(w, root, BEGINNING, events, to);
    }
    if Executes(trust, body, Start(body), events, Done) {
      var k := ExecutionWalks(w, root, BEGINNING, events, Done);
      DoneIsEnd(w, k);
    }
    if Walks(g, BEGINNING, events, END) {
      var k := WalkExecutes(w, root, BEGINNING, events, END);
      DoneIsEnd(w, k);
    }
  }
}
