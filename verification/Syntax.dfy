/**
 The statements that shape a function's control flow, and what they mean.

 A condition is either folded to a constant by the type checker or unknown, in which case
 both outcomes are possible.  Expressions are not modelled beyond that: a simple statement is
 named by the instruction it becomes, lists the calls in its direct effect position, and says
 whether it contains a call to panic.
 */
module Wrappers {
  datatype Option<+T> = None | Some(value: T)

  lemma {:induction false} Subset<T>(a: set<T>, b: set<T>)
    requires a <= b
    ensures |a| <= |b|
  {
    if a != {} {
      var x :| x in a;
      Subset(a - {x}, b - {x});
    }
  }
}

module Syntax {
  import opened Wrappers
  import opened Graph

  type CallId = nat

  type Label = string

  datatype Cond = Known(value: bool) | Unknown

  predicate Allows(c: Cond, outcome: bool) {
    c.Unknown? || c.value == outcome
  }

  datatype Simple = Simple(id: Instr, calls: seq<CallId>, panics: bool)

  datatype Stmt =
    | Block(list: seq<Stmt>)
    | Labeled(name: Label, body: Stmt)
    | Exec(simple: Simple)
    | VarDecl(specs: seq<Simple>)
    | Opaque(id: Instr)
    | GoCall(id: Instr, call: CallId)
    | DeferCall(id: Instr, call: CallId)
    | Empty
    | If(init: Option<Simple>, cond: Cond, thn: seq<Stmt>, els: Option<Stmt>)
    | For(init: Option<Simple>, test: Option<Cond>, post: Option<Simple>, loop: seq<Stmt>)
    | Range(loop: seq<Stmt>)
    | Switch(init: Option<Simple>, clauses: seq<Clause>)
    | Select(clauses: seq<Clause>)
    | ReturnStmt(id: Instr, calls: seq<CallId>)
    | BreakStmt(target: Label)
    | ContinueStmt(target: Label)
    | GotoStmt(target: Label)
    | FallthroughStmt(id: Instr)

  // A case of a switch, type switch or select; isDefault marks the default clause.
  datatype Clause = Clause(isDefault: bool, body: seq<Stmt>)

  // The label of a statement that has none; also the label of an unlabelled break.
  const NO_LABEL: Label := ""

  predicate HasDefault(clauses: seq<Clause>) {
    exists i :: 0 <= i < |clauses| && clauses[i].isDefault
  }

  /****** Labels, in the order a traversal meets them ******/

  function Labels(s: Stmt): seq<Label>
    decreases s, 0
  {
    match s
    case Block(list) => LabelsOfList(list)
    case Labeled(l, body) => [l] + Labels(body)
    case If(_, _, thn, els) => LabelsOfList(thn) + if els.Some? then Labels(els.value) else []
    case For(_, _, _, loop) => LabelsOfList(loop)
    case Range(loop) => LabelsOfList(loop)
    case Switch(_, clauses) => LabelsOfClauses(clauses, |clauses|)
    case Select(clauses) => LabelsOfClauses(clauses, |clauses|)
    case _ => []
  }

  function LabelsOfList(list: seq<Stmt>): seq<Label>
    decreases list, 0
  {
    if list == [] then [] else Labels(list[0]) + LabelsOfList(list[1..])
  }

  // The labels of the first n clauses.
  function LabelsOfClauses(clauses: seq<Clause>, n: nat): seq<Label>
    requires n <= |clauses|
    decreases clauses, n
  {
    if n == 0 then [] else LabelsOfClauses(clauses, n - 1) + LabelsOfList(clauses[n - 1].body)
  }

  /****** Where a fallthrough may stand ******/

  // The statements of a clause before a closing fallthrough.
  function Strip(body: seq<Stmt>): seq<Stmt> {
    if Falls(body) then body[..|body| - 1] else body
  }

  // The closing statement of a clause is a fallthrough.
  predicate Falls(body: seq<Stmt>) {
    body != [] && body[|body| - 1].FallthroughStmt?
  }

  // What the builder goes by: the first bare fallthrough of a clause closes it.
  predicate FallsOut(body: seq<Stmt>) {
    body != [] && if body[0].FallthroughStmt? then |body| == 1 else FallsOut(body[1..])
  }

  // Every fallthrough is the closing statement of a switch clause that is not the last.
  predicate FallsPlaced(s: Stmt)
    decreases s, 0
  {
    match s
    case Block(list) => FallsPlacedIn(list)
    case Labeled(_, body) => FallsPlaced(body)
    case If(_, _, thn, els) => FallsPlacedIn(thn) && (els.Some? ==> FallsPlaced(els.value))
    case For(_, _, _, loop) => FallsPlacedIn(loop)
    case Range(loop) => FallsPlacedIn(loop)
    case Switch(_, clauses) => forall i :: 0 <= i < |clauses| ==>
      FallsPlacedInClause(clauses[i].body, i + 1 < |clauses|)
    case Select(clauses) => forall i :: 0 <= i < |clauses| ==> FallsPlacedInClause(clauses[i].body, false)
    case FallthroughStmt(_) => false
    case _ => true
  }

  predicate FallsPlacedIn(list: seq<Stmt>)
    decreases list, 0
  {
    forall i :: 0 <= i < |list| ==> FallsPlaced(list[i])
  }

  predicate FallsPlacedInClause(body: seq<Stmt>, mayFall: bool)
    decreases body, 0
  {
    (Falls(body) ==> mayFall) && forall i :: 0 <= i < |body| && !(Falls(body) && i == |body| - 1) ==>
      FallsPlaced(body[i])
  }

  // Bodies the compiler translates faithfully: labels are unique, fallthroughs are placed.
  ghost predicate WellFormed(body: seq<Stmt>) {
    NoRepeats(LabelsOfList(body)) && FallsPlacedIn(body)
  }

  ghost predicate NoRepeats(ls: seq<Label>) {
    forall i, j :: 0 <= i < j < |ls| ==> ls[i] != ls[j]
  }
}

/**
 Execution as a machine whose state is the rest of the program.

 A continuation holds what is left to do; break, continue and fallthrough unwind it and goto
 replaces it by the continuation of its label.  One move either performs an instruction or
 transfers control, and is labelled accordingly.  Unknown conditions, the case a switch or
 select picks, and whether a trusted call ends the worker are free choices.
 */
module Semantics {
  import opened Wrappers
  import opened Graph
  import opened Syntax

  datatype Event = Emit(id: Instr) | Jump(kind: EdgeKind)

  datatype Kont =
    | Done
    | Leave(how: EdgeKind)                            // about to end: body exhausted, return or panic
    | Run(s: Stmt, name: Label, k: Kont)             // run s, directly labelled label, then k
    | Seq(list: seq<Stmt>, k: Kont)
    | Join(k: Kont)                                   // end of a branch
    | Loop(name: Label, loop: Stmt, k: Kont)         // end of a loop body
    | Back(name: Label, loop: Stmt, k: Kont)         // after a loop's post statement
    | Test(name: Label, loop: Stmt, k: Kont)         // at a loop's condition
    | ClauseEnd(name: Label, rest: seq<Clause>, k: Kont)
    | Trusted(k: Kont)                                // after a trusted call

  datatype Move = Move(event: Event, next: Kont)

  /****** Finding the next thing to do ******/

  function Weight(s: Stmt): nat
    decreases s, 0
  {
    if s.Block? then 2 + ListWeight(s.list) else 1
  }

  function ListWeight(list: seq<Stmt>): nat
    decreases list, 0
  {
    if list == [] then 0 else 1 + Weight(list[0]) + ListWeight(list[1..])
  }

  function KontWeight(c: Kont): nat {
    match c
    case Run(s, _, k) => Weight(s) + KontWeight(k)
    case Seq(list, k) => 1 + ListWeight(list) + KontWeight(k)
    case _ => 0
  }

  function WithoutInit(s: Stmt): Stmt {
    match s
    case If(_, c, t, e) => If(None, c, t, e)
    case For(_, t, p, l) => For(None, t, p, l)
    case Switch(_, cs) => Switch(None, cs)
    case _ => s
  }

  function InitOf(s: Stmt): Option<Simple> {
    match s
    case If(init, _, _, _) => init
    case For(init, _, _, _) => init
    case Switch(init, _) => init
    case _ => None
  }

  // Skips empty statements and enters blocks until a move can be made.
  function Focus(c: Kont): Kont
    decreases KontWeight(c)
  {
    match c
    case Seq(list, k) =>
      if list == [] then Focus(k) else
        assert KontWeight(Seq(list[1..], k)) + Weight(list[0]) < KontWeight(c);
        Focus(Run(list[0], NO_LABEL, Seq(list[1..], k)))
    case Run(Block(list), _, k) => Focus(Seq(list, k))
    case Run(Empty, _, k) => Focus(k)
    case Run(VarDecl(specs), l, k) =>
      if specs == [] then Focus(k) else Run(Exec(specs[0]), NO_LABEL, Run(VarDecl(specs[1..]), l, k))
    case Run(s, l, k) =>
      if InitOf(s).Some? then Run(Exec(InitOf(s).value), NO_LABEL, Run(WithoutInit(s), l, k)) else c
    case _ => c
  }

  /****** Transfers of control ******/

  predicate Names(wanted: Label, name: Label) {
    wanted == NO_LABEL || wanted == name
  }

  // break leaves the innermost loop, switch or select, or the one with the given label.
  function BreakTo(c: Kont, wanted: Label): Option<Kont> {
    match c
    case Run(_, _, k) => BreakTo(k, wanted)
    case Seq(_, k) => BreakTo(k, wanted)
    case Join(k) => BreakTo(k, wanted)
    case Trusted(k) => BreakTo(k, wanted)
    case Loop(l, _, k) => if Names(wanted, l) then Some(k) else BreakTo(k, wanted)
    case ClauseEnd(l, _, k) => if Names(wanted, l) then Some(k) else BreakTo(k, wanted)
    case Back(l, _, k) => if Names(wanted, l) then Some(k) else BreakTo(k, wanted)
    case Test(_, _, k) => BreakTo(k, wanted)
    case _ => None
  }

  // continue runs the post statement of the innermost, or the named, loop.
  function ContinueTo(c: Kont, wanted: Label): Option<Kont> {
    match c
    case Run(_, _, k) => ContinueTo(k, wanted)
    case Seq(_, k) => ContinueTo(k, wanted)
    case Join(k) => ContinueTo(k, wanted)
    case Trusted(k) => ContinueTo(k, wanted)
    case Loop(l, loop, k) => if Names(wanted, l) then Some(NextRound(l, loop, k)) else ContinueTo(k, wanted)
    case ClauseEnd(_, _, k) => ContinueTo(k, wanted)
    case Back(l, loop, k) => if Names(wanted, l) then Some(NextRound(l, loop, k)) else ContinueTo(k, wanted)
    case Test(_, _, k) => ContinueTo(k, wanted)
    case _ => None
  }

  function NextRound(l: Label, loop: Stmt, k: Kont): Kont {
    if loop.For? && loop.post.Some? then Run(Exec(loop.post.value), NO_LABEL, Back(l, loop, k)) else Test(l, loop, k)
  }

  // fallthrough enters the next clause of the switch.
  function FallTo(c: Kont): Option<Kont> {
    match c
    case Seq(_, k) => FallTo(k)
    case ClauseEnd(l, rest, k) => if rest == [] then None else Some(Seq(rest[0].body, ClauseEnd(l, rest[1..], k)))
    case _ => None
  }

  // goto: the continuation of a label, searched through the whole body.
  function Find(s: Stmt, l: Label, k: Kont, wanted: Label): Option<Kont>
    decreases s, 0
  {
    match s
    case Block(list) => FindIn(list, k, wanted)
    case Labeled(m, body) => if m == wanted then Some(Run(body, m, k)) else Find(body, m, k, wanted)
    case If(_, _, thn, els) =>
      var r := FindIn(thn, Join(k), wanted);
      if r.Some? then r else if els.Some? then Find(els.value, NO_LABEL, Join(k), wanted) else None
    case For(_, _, _, loop) => FindIn(loop, Loop(l, WithoutInit(s), k), wanted)
    case Range(loop) => FindIn(loop, Loop(l, s, k), wanted)
    case Switch(_, clauses) => FindInClauses(clauses, |clauses|, l, true, k, wanted)
    case Select(clauses) => FindInClauses(clauses, |clauses|, l, false, k, wanted)
    case _ => None
  }

  function FindIn(list: seq<Stmt>, k: Kont, wanted: Label): Option<Kont>
    decreases list, 0
  {
    if list == [] then None else
      var r := Find(list[0], NO_LABEL, Seq(list[1..], k), wanted);
      if r.Some? then r else FindIn(list[1..], k, wanted)
  }

  function FindInClauses(clauses: seq<Clause>, n: nat, l: Label, falls: bool, k: Kont, wanted: Label): Option<Kont>
    requires n <= |clauses|
    decreases clauses, n
  {
    if n == 0 then None else
      var r := FindInClauses(clauses, n - 1, l, falls, k, wanted);
      if r.Some? then r else FindIn(clauses[n - 1].body, ClauseEnd(l, Rest(clauses, n - 1, falls), k), wanted)
  }

  // The clauses a fallthrough out of clause i may still enter; a select has none.
  function Rest(clauses: seq<Clause>, i: nat, falls: bool): seq<Clause>
    requires i < |clauses|
  {
    if falls then clauses[i + 1..] else []
  }

  /****** Moves ******/

  function Only(event: Event, target: Option<Kont>): seq<Move> {
    if target.Some? then [Move(event, target.value)] else []
  }

  function When(b: bool, m: Move): seq<Move> {
    if b then [m] else []
  }

  // Entering clause i, for each clause from n on.
  function CaseMoves(clauses: seq<Clause>, n: nat, l: Label, falls: bool, k: Kont): (r: seq<Move>)
    requires n <= |clauses|
    ensures |r| == n
    decreases n
  {
    if n == 0 then [] else
      CaseMoves(clauses, n - 1, l, falls, k) +
      [Move(Jump(EdgeKind.Case), Seq(clauses[n - 1].body, ClauseEnd(l, Rest(clauses, n - 1, falls), k)))]
  }

  function AfterSimple(trust: Instr -> bool, x: Simple, k: Kont): Kont {
    if x.panics then Leave(Panic) else if trust(x.id) then Trusted(k) else k
  }

  // What can happen next, for a machine that is at c after focusing.
  function Moves(trust: Instr -> bool, body: seq<Stmt>, c: Kont): seq<Move> {
    match c
    case Done => []
    case Leave(how) => [Move(Jump(how), Done)]
    case Join(k) => [Move(Jump(Normal), k)]
    case ClauseEnd(_, _, k) => [Move(Jump(Normal), k)]
    case Trusted(k) => [Move(Jump(Normal), k), Move(Jump(TrustedStop), Done)]
    case Loop(l, loop, k) =>
      [Move(Jump(if loop.For? && loop.post.Some? then Normal else LoopBack), NextRound(l, loop, k))]
    case Back(l, loop, k) => [Move(Jump(LoopBack), Test(l, loop, k))]
    case Test(l, loop, k) =>
      if loop.For? && loop.test.None? then [Move(Jump(Normal), Seq(loop.loop, Loop(l, loop, k)))]
      else if loop.For? || loop.Range? then
        var cond := if loop.For? then loop.test.value else Unknown;
        When(Allows(cond, true), Move(Jump(IfTrue), Seq(loop.loop, Loop(l, loop, k)))) +
        When(Allows(cond, false), Move(Jump(IfFalse), k))
      else []
    case Run(s, l, k) => StmtMoves(trust, body, s, l, k)
    case Seq(_, _) => []
  }

  function StmtMoves(trust: Instr -> bool, body: seq<Stmt>, s: Stmt, l: Label, k: Kont): seq<Move> {
    match s
    case Exec(x) => [Move(Emit(x.id), AfterSimple(trust, x, k))]
    case Opaque(id) => [Move(Emit(id), k)]
    case GoCall(id, _) => [Move(Emit(id), k)]
    case DeferCall(id, _) => [Move(Emit(id), k)]
    case ReturnStmt(id, _) => [Move(Emit(id), Leave(Return))]
    case Labeled(m, inner) => [Move(Jump(Normal), Run(inner, m, k))]
    case If(_, cond, thn, els) =>
      When(Allows(cond, true), Move(Jump(IfTrue), Seq(thn, Join(k)))) +
      When(Allows(cond, false), Move(Jump(IfFalse), if els.Some? then Run(els.value, NO_LABEL, Join(k)) else k))
    case For(_, _, _, _) => [Move(Jump(Normal), Test(l, s, k))]
    case Range(_) => [Move(Jump(Normal), Test(l, s, k))]
    case Switch(_, clauses) =>
      When(!HasDefault(clauses), Move(Jump(Normal), k)) + CaseMoves(clauses, |clauses|, l, true, k)
    case Select(clauses) => CaseMoves(clauses, |clauses|, l, false, k)
    case BreakStmt(m) => Only(Jump(EdgeKind.Break), BreakTo(k, m))
    case ContinueStmt(m) => Only(Jump(EdgeKind.Continue), ContinueTo(k, m))
    case GotoStmt(m) => Only(Jump(EdgeKind.Goto), FindIn(body, Leave(Normal), m))
    case FallthroughStmt(_) => Only(Jump(EdgeKind.Fallthrough), FallTo(k))
    case Block(_) => []
    case VarDecl(_) => []
    case Empty => []
  }

  function Start(body: seq<Stmt>): Kont {
    Seq(body, Leave(Normal))
  }

  // Some execution leads from c to d and shows these events.
  ghost predicate Executes(trust: Instr -> bool, body: seq<Stmt>, c: Kont, events: seq<Event>, d: Kont)
    decreases events
  {
    if events == [] then c == d
    else exists m ::
      m in Moves(trust, body, Focus(c)) && m.event == events[0] && Executes(trust, body, m.next, events[1..], d)
  }
}
