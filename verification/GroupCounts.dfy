/**
 What the accounting walk finds, read off the body without walking it.
 */
module GroupCounts {
  import opened Wrappers
  import opened Syntax
  import opened GroupBalance

  /****** What is done for certain, and once ******/

  // The simple statements outside loops and open conditionals, in order.
  function Line(s: GStmt): seq<Act>
    decreases s, 0
  {
    match s
    case Do(a) => [a]
    case Block(list) => LineOf(list)
    case Labeled(body) => Line(body)
    case If(_, cond, thn, els) =>
      if cond == Cond.Known(true) then LineOf(thn)
      else if cond == Cond.Known(false) && els.Some? then Line(els.value)
      else []
    case _ => []
  }

  function LineOf(list: seq<GStmt>): seq<Act>
    decreases list, 0
  {
    if list == [] then [] else Line(list[0]) + LineOf(list[1..])
  }

  predicate StartsWorker(a: Act, obj: Obj) {
    a.Spawn? && obj in a.worksFor
  }

  // Constant amounts added, Dones called, recognised workers started, Adds of one.
  function Added(acts: seq<Act>, obj: Obj): nat {
    if acts == [] then 0
    else
      var a := acts[0];
      (if a.AddCall? && a.obj == obj && a.amount.Literal? then a.amount.n else 0) + Added(acts[1..], obj)
  }

  function Dones(acts: seq<Act>, obj: Obj): nat {
    if acts == [] then 0
    else (if acts[0].DoneCall? && acts[0].obj == obj then 1 else 0) + Dones(acts[1..], obj)
  }

  function Started(acts: seq<Act>, obj: Obj): nat {
    if acts == [] then 0 else (if StartsWorker(acts[0], obj) then 1 else 0) + Started(acts[1..], obj)
  }

  function Ones(acts: seq<Act>, obj: Obj): nat {
    if acts == [] then 0
    else
      var a := acts[0];
      (if a.AddCall? && a.obj == obj && a.amount == Literal(1) then 1 else 0) + Ones(acts[1..], obj)
  }

  /****** When the count is certain ******/

  predicate CertainAct(a: Act, obj: Obj, inLoop: bool) {
    match a
    case AddCall(o, amount, _) => o == obj ==> amount.Literal? && (inLoop ==> amount.n == 1)
    case DoneCall(o, _) => o == obj ==> !inLoop
    case _ => true
  }

  // Amounts are constant; in a loop only Adds of one and worker starts act on the group; the
  // arms of a conditional come out even; a loop starts as many workers as it adds.
  predicate Certain(s: GStmt, obj: Obj, inLoop: bool)
    decreases s, 1
  {
    match s
    case Do(a) => CertainAct(a, obj, inLoop)
    case Block(list) => AllCertain(list, obj, inLoop)
    case Labeled(body) => Certain(body, obj, inLoop)
    case If(_, cond, thn, els) =>
      if cond == Cond.Known(true) then AllCertain(thn, obj, inLoop)
      else if cond == Cond.Known(false) then els.Some? ==> Certain(els.value, obj, inLoop)
      else
        && EvenList(thn, obj)
        && (els.Some? ==> Certain(els.value, obj, false) && EvenLine(Line(els.value), obj))
    case For(_, test, _, loop) => test == Some(Cond.Known(false)) || Matched(loop, obj)
    case Range(loop) => Matched(loop, obj)
    case Switch(_, clauses) => forall i :: 0 <= i < |clauses| ==> EvenList(clauses[i].body, obj)
    case Select(clauses) => forall i :: 0 <= i < |clauses| ==> EvenList(clauses[i].body, obj)
  }

  predicate AllCertain(list: seq<GStmt>, obj: Obj, inLoop: bool)
    decreases list, 0
  {
    forall i :: 0 <= i < |list| ==> Certain(list[i], obj, inLoop)
  }

  predicate EvenLine(acts: seq<Act>, obj: Obj) {
    Added(acts, obj) == Dones(acts, obj) + Started(acts, obj)
  }

  predicate EvenList(list: seq<GStmt>, obj: Obj)
    decreases list, 1
  {
    AllCertain(list, obj, false) && EvenLine(LineOf(list), obj)
  }

  predicate Matched(loop: seq<GStmt>, obj: Obj)
    decreases loop, 1
  {
    AllCertain(loop, obj, true) && Ones(LineOf(loop), obj) == Started(LineOf(loop), obj)
  }

  /****** The walk finds just that ******/

  function Found(bal: Balance, acts: seq<Act>, obj: Obj, certain: bool): Balance {
    var starts := Started(acts, obj);
    Balance(bal.addTotal + Added(acts, obj), bal.doneTotal + Dones(acts, obj) + starts, bal.spawned + starts,
      bal.fullyKnown && certain)
  }

  // From c the walk has come to r, past these acts.
  ghost predicate Finds(c: Count, r: Count, acts: seq<Act>, obj: Obj, certain: bool) {
    match c
    case Straight(bal) => r == Straight(Found(bal, acts, obj, certain))
    case InLoop(bal, scope) =>
      && r.InLoop? && r.bal.(fullyKnown := bal.fullyKnown) == bal
      && r.scope.addOnes == scope.addOnes + Ones(acts, obj)
      && r.scope.spawnedDones == scope.spawnedDones + Started(acts, obj)
      && (Sure(r) <==> Sure(c) && certain)
  }

  lemma {:induction false} Sums(a: seq<Act>, b: seq<Act>, obj: Obj)
    ensures Added(a + b, obj) == Added(a, obj) + Added(b, obj)
    ensures Dones(a + b, obj) == Dones(a, obj) + Dones(b, obj)
    ensures Started(a + b, obj) == Started(a, obj) + Started(b, obj)
    ensures Ones(a + b, obj) == Ones(a, obj) + Ones(b, obj)
  {
    if a == [] {
      assert a + b == b;
    } else {
      assert (a + b)[1..] == a[1..] + b;
      Sums(a[1..], b, obj);
    }
  }

  lemma FindsTrans(c: Count, d: Count, r: Count, a: seq<Act>, b: seq<Act>, obj: Obj, x: bool, y: bool)
    requires Finds(c, d, a, obj, x) && Finds(d, r, b, obj, y)
    ensures Finds(c, r, a + b, obj, x && y)
  {
    Sums(a, b, obj);
  }

  lemma FindsNothing(c: Count, obj: Obj)
    ensures Finds(c, c, [], obj, true)
  {}

  lemma FindsOne(c: Count, a: Act, obj: Obj)
    ensures Finds(c, WalkAct(a, obj, c), [a], obj, CertainAct(a, obj, c.InLoop?))
  {
    assert [a][1..] == [];
    assert Added([], obj) == Dones([], obj) == Started([], obj) == Ones([], obj) == 0;
  }

  lemma FindsFolded(c: Count, safe: bool, obj: Obj)
    ensures Finds(c, FoldArms(c, safe), [], obj, safe)
  {}

  lemma FindsClosed(c: Count, inner: Count, acts: seq<Act>, obj: Obj, certain: bool)
    requires Finds(InLoop(c.bal, Scope(0, 0, false)), inner, acts, obj, certain)
    ensures inner.InLoop?
    ensures Finds(c, WithBalance(c, CloseScope(inner.bal, inner.scope)), [], obj,
      certain && Ones(acts, obj) == Started(acts, obj))
  {}

  lemma EvenFound(r: Balance, acts: seq<Act>, obj: Obj, certain: bool)
    requires Finds(Count.Straight(NOTHING), Count.Straight(r), acts, obj, certain)
    ensures Even(r) <==> certain && EvenLine(acts, obj)
  {}

  // The walk of a statement counts its line, and stays certain exactly if the statement is.
  lemma {:induction false} WalkFinds(s: GStmt, obj: Obj, c: Count)
    ensures Finds(c, WalkStmt(s, obj, c, NoIndex), Line(s), obj, Certain(s, obj, c.InLoop?))
    decreases s, 1
  {
    hide Finds, Even, FoldArms, CloseScope, AllCertain, EvenList, Matched, EvenArms, WalkAll, WalkStmts, CertainAct,
      EvenLine;
    FindsNothing(c, obj);
    match s {
      case Do(a) => FindsOne(c, a, obj);
      case Block(list) => WalkAllFinds(list, obj, c);
      case Labeled(body) => WalkFinds(body, obj, c);
      case If(_, cond, thn, els) =>
        if cond == Cond.Known(true) { WalkAllFinds(thn, obj, c); }
        else if cond == Cond.Known(false) { if els.Some? { WalkFinds(els.value, obj, c); } }
        else {
          EvenListIs(thn, obj);
          if els.Some? { EvenOneIs(els.value, obj); }
          FindsFolded(c, Even(WalkStmts(thn, obj, NoIndex))
            && (els.None? || Even(WalkOne(els.value, obj, NoIndex))), obj);
        }
      case For(_, test, _, loop) => if test != Some(Cond.Known(false)) { LoopFinds(loop, obj, c); }
      case Range(loop) => LoopFinds(loop, obj, c);
      case Switch(_, clauses) =>
        ArmsAre(clauses, |clauses|, obj);
        FindsFolded(c, EvenArms(clauses, |clauses|, obj, NoIndex), obj);
      case Select(clauses) =>
        ArmsAre(clauses, |clauses|, obj);
        FindsFolded(c, EvenArms(clauses, |clauses|, obj, NoIndex), obj);
    }
  }

  lemma {:induction false} WalkAllFinds(list: seq<GStmt>, obj: Obj, c: Count)
    ensures Finds(c, WalkAll(list, obj, c, NoIndex), LineOf(list), obj, AllCertain(list, obj, c.InLoop?))
    decreases list, 0
  {
    hide Finds, Line, Certain, WalkStmt;
    FindsNothing(c, obj);
    if list != [] {
      var d := WalkStmt(list[0], obj, c, NoIndex);
      WalkFinds(list[0], obj, c);
      WalkAllFinds(list[1..], obj, d);
      FindsTrans(c, d, WalkAll(list, obj, c, NoIndex), Line(list[0]), LineOf(list[1..]), obj,
        Certain(list[0], obj, c.InLoop?), AllCertain(list[1..], obj, c.InLoop?));
      assert AllCertain(list, obj, c.InLoop?) <==>
        Certain(list[0], obj, c.InLoop?) && AllCertain(list[1..], obj, c.InLoop?) by {
        FirstCertain(list, obj, c.InLoop?);
      }
    }
  }

  lemma FirstCertain(list: seq<GStmt>, obj: Obj, inLoop: bool)
    requires list != []
    ensures AllCertain(list, obj, inLoop) <==> Certain(list[0], obj, inLoop) && AllCertain(list[1..], obj, inLoop)
  {
    hide Certain;
    if AllCertain(list[1..], obj, inLoop) && Certain(list[0], obj, inLoop) {
      forall i | 0 <= i < |list| ensures Certain(list[i], obj, inLoop) {
        if i > 0 { assert list[1..][i - 1] == list[i]; }
      }
    }
  }

  lemma LoopFinds(loop: seq<GStmt>, obj: Obj, c: Count)
    ensures Finds(c, WalkLoop(loop, obj, c, NoIndex), [], obj, Matched(loop, obj))
    decreases loop, 1
  {
    hide Finds, WalkAll, CloseScope;
    var start := InLoop(c.bal, Scope(0, 0, false));
    WalkAllFinds(loop, obj, start);
    FindsClosed(c, WalkAll(loop, obj, start, NoIndex), LineOf(loop), obj, AllCertain(loop, obj, true));
  }

  lemma EvenListIs(list: seq<GStmt>, obj: Obj)
    ensures Even(WalkStmts(list, obj, NoIndex)) <==> EvenList(list, obj)
    decreases list, 1
  {
    hide Finds, Even, EvenLine, AllCertain, WalkAll;
    WalkAllFinds(list, obj, Straight(NOTHING));
    UnskippedIsAll(list, obj, NOTHING);
    EvenFound(WalkStmts(list, obj, NoIndex), LineOf(list), obj, AllCertain(list, obj, false));
  }

  lemma EvenOneIs(s: GStmt, obj: Obj)
    ensures Even(WalkOne(s, obj, NoIndex)) <==> Certain(s, obj, false) && EvenLine(Line(s), obj)
    decreases s, 2
  {
    hide Finds, Even, EvenLine, Certain, WalkStmt;
    WalkFinds(s, obj, Straight(NOTHING));
    EvenFound(WalkOne(s, obj, NoIndex), Line(s), obj, Certain(s, obj, false));
  }

  lemma {:induction false} ArmsAre(clauses: seq<Arm>, n: nat, obj: Obj)
    requires n <= |clauses|
    ensures EvenArms(clauses, n, obj, NoIndex) <==> forall i :: 0 <= i < n ==> EvenList(clauses[i].body, obj)
    decreases clauses, n
  {
    hide Even, WalkStmts, EvenList;
    if n > 0 {
      ArmsAre(clauses, n - 1, obj);
      EvenListIs(clauses[n - 1].body, obj);
    }
  }

  // What is counted for a body, with any index: constant Adds, Dones and started workers on
  // its line; and when the count is known.
  lemma WalkCounts(list: seq<GStmt>, obj: Obj, index: Index)
    requires Covering(index, obj)
    ensures var bal, acts := WalkStmts(list, obj, index), LineOf(list);
      && bal.addTotal == Added(acts, obj)
      && bal.doneTotal == Dones(acts, obj) + Started(acts, obj)
      && bal.spawned == Started(acts, obj)
      && (bal.fullyKnown <==> AllCertain(list, obj, false))
  {
    hide WalkAll, AllCertain, LineOf;
    IndexRefinesStmts(list, obj, NOTHING, index);
    UnskippedIsAll(list, obj, NOTHING);
    WalkAllFinds(list, obj, Straight(NOTHING));
  }

  /****** Started workers, and executions ******/

  // Simple statements, blocks and labels.
  predicate Plain(s: GStmt)
    decreases s, 0
  {
    match s
    case Do(_) => true
    case Block(list) => AllPlain(list)
    case Labeled(body) => Plain(body)
    case _ => false
  }

  predicate AllPlain(list: seq<GStmt>)
    decreases list, 0
  {
    list == [] || (Plain(list[0]) && AllPlain(list[1..]))
  }

  lemma {:induction false} PlainRuns(s: GStmt, obj: Obj, e: Course)
    requires Plain(s) && IsExec(s, obj, e)
    ensures TotalOf(e).spawns == Started(Line(s), obj)
    decreases s, 1
  {
    match s {
      case Do(a) => assert [a][1..] == [];
      case Block(list) => PlainAllRun(list, obj, e.parts);
      case Labeled(body) =>
        PlainRuns(body, obj, e.parts[0]);
        assert SumOf(e.parts) == TotalOf(e.parts[0]);
    }
  }

  lemma {:induction false} PlainAllRun(list: seq<GStmt>, obj: Obj, parts: seq<Course>)
    requires AllPlain(list) && AreExecs(list, obj, parts)
    ensures SumOf(parts).spawns == Started(LineOf(list), obj)
    decreases list, 0
  {
    hide IsExec, Plain, Line;
    if list != [] {
      PlainRuns(list[0], obj, parts[0]);
      PlainAllRun(list[1..], obj, parts[1..]);
      Sums(Line(list[0]), LineOf(list[1..]), obj);
    }
  }

  // On a body of simple statements, blocks and labels exactly the counted workers start.
  lemma SpawnedExactly(list: seq<GStmt>, obj: Obj, index: Index, parts: seq<Course>)
    requires Covering(index, obj) && AllPlain(list) && AreExecs(list, obj, parts)
    ensures WalkStmts(list, obj, index).spawned == SumOf(parts).spawns
  {
    hide WalkStmts, LineOf, AreExecs, SumOf, Started, AllCertain;
    WalkCounts(list, obj, index);
    PlainAllRun(list, obj, parts);
  }

  lemma {:induction false} StartedIs(acts: seq<Act>, obj: Obj)
    ensures Started(acts, obj) > 0 <==> exists a :: a in acts && StartsWorker(a, obj)
  {
    if acts != [] {
      StartedIs(acts[1..], obj);
      assert acts == [acts[0]] + acts[1..];
    }
  }

  // A worker started by a statement of the list itself is on its line.
  lemma {:induction false} OnLine(list: seq<GStmt>, i: nat)
    requires i < |list| && list[i].Do?
    ensures list[i].act in LineOf(list)
    decreases i
  {
    if i > 0 { OnLine(list[1..], i - 1); }
  }
}
