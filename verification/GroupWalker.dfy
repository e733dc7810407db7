/**
 The accounting walk as it is run: one pass that fills in a ledger and a loop's scope.
 */
module GroupWalker {
  import opened Wrappers
  import opened Syntax
  import opened GroupBalance
  import G = GroupBalance

  class Ledger {
    var addTotal: nat
    var doneTotal: nat
    var spawned: nat
    var fullyKnown: bool

    constructor ()
      ensures Now() == NOTHING
    {
      addTotal, doneTotal, spawned, fullyKnown := 0, 0, 0, true;
    }

    function Now(): Balance
      reads this
    {
      Balance(addTotal, doneTotal, spawned, fullyKnown)
    }
  }

  class LoopLedger {
    var addOnes: nat
    var spawnedDones: nat
    var otherActivity: bool

    constructor ()
      ensures Now() == Scope(0, 0, false)
    {
      addOnes, spawnedDones, otherActivity := 0, 0, false;
    }

    function Now(): Scope
      reads this
    {
      Scope(addOnes, spawnedDones, otherActivity)
    }
  }

  // What the walker has counted: straight into bal, or into the scope of the loop it is in.
  function View(bal: Ledger, scope: LoopLedger?): Count
    reads bal, scope
  {
    if scope == null then Straight(bal.Now()) else InLoop(bal.Now(), scope.Now())
  }

  method NoteAddInto(bal: Ledger, scope: LoopLedger?, amount: Amount)
    modifies bal, scope
    ensures View(bal, scope) == NoteAdd(old(View(bal, scope)), amount)
  {
    if scope == null && amount.Literal? { bal.addTotal := bal.addTotal + amount.n; }
    else if scope != null && amount.Literal? && amount.n == 1 { scope.addOnes := scope.addOnes + 1; }
    else if scope != null { scope.otherActivity := true; }
    else { bal.fullyKnown := false; }
  }

  method NoteDoneInto(bal: Ledger, scope: LoopLedger?)
    modifies bal, scope
    ensures View(bal, scope) == NoteDone(old(View(bal, scope)))
  {
    if scope == null { bal.doneTotal := bal.doneTotal + 1; return; }
    scope.otherActivity := true;
  }

  method NoteSpawnedDoneInto(bal: Ledger, scope: LoopLedger?)
    modifies bal, scope
    ensures View(bal, scope) == NoteSpawnedDone(old(View(bal, scope)))
  {
    if scope == null {
      bal.doneTotal := bal.doneTotal + 1;
      bal.spawned := bal.spawned + 1;
      return;
    }
    scope.spawnedDones := scope.spawnedDones + 1;
  }

  method FoldConditionalArms(bal: Ledger, scope: LoopLedger?, arms: seq<Balance>)
    modifies bal, scope
    ensures View(bal, scope) == FoldArms(old(View(bal, scope)), forall i :: 0 <= i < |arms| ==> Even(arms[i]))
  {
    for i := 0 to |arms|
      invariant forall j :: 0 <= j < i ==> Even(arms[j])
      invariant View(bal, scope) == old(View(bal, scope))
    {
      if !arms[i].fullyKnown || arms[i].addTotal != arms[i].doneTotal {
        assert !Even(arms[i]);
        if scope != null { scope.otherActivity := true; } else { bal.fullyKnown := false; }
        return;
      }
    }
  }

  method CloseLoopScopeInto(bal: Ledger, scope: LoopLedger)
    modifies bal
    ensures bal.Now() == CloseScope(old(bal.Now()), scope.Now())
  {
    if scope.otherActivity { bal.fullyKnown := false; return; }
    if scope.addOnes != scope.spawnedDones {
      if scope.addOnes != 0 || scope.spawnedDones != 0 { bal.fullyKnown := false; }
      return;
    }
  }

  method WalkGroupBalanceStmts(list: seq<GStmt>, obj: Obj, index: Index) returns (r: Balance)
    ensures r == WalkStmts(list, obj, index)
    decreases list, 1
  {
    hide G.WalkStmt;
    var bal := new Ledger();
    for i := 0 to |list|
      invariant fresh(bal) && WalkUnskipped(list[i..], obj, bal.Now(), index) == WalkStmts(list, obj, index)
    {
      assert list[i..][1..] == list[i + 1..];
      if Skips(index, list[i], obj) { continue; }
      WalkGroupBalanceStmt(list[i], obj, bal, null, index);
    }
    r := bal.Now();
  }

  method WalkGroupBalanceStmt(s: GStmt, obj: Obj, bal: Ledger, scope: LoopLedger?, index: Index)
    modifies bal, scope
    ensures View(bal, scope) == G.WalkStmt(s, obj, old(View(bal, scope)), index)
    decreases s, 1
  {
    hide WalkAll, WalkStmts, WalkLoop, WalkOne, NoteAdd, NoteDone, NoteSpawnedDone, FoldArms, EvenArms, Even;
    match s
    case Do(AddCall(o, amount, _)) => if o == obj { NoteAddInto(bal, scope, amount); }
    case Do(DoneCall(o, _)) => if o == obj { NoteDoneInto(bal, scope); }
    case Do(Spawn(worksFor, _)) => if obj in worksFor { NoteSpawnedDoneInto(bal, scope); }
    case Do(_) =>
    case Block(list) => WalkBlock(list, obj, bal, scope, index);
    case Labeled(body) => WalkGroupBalanceStmt(body, obj, bal, scope, index);
    case If(_, cond, thn, els) =>
      if cond.Known? {
        if cond.value { WalkBlock(thn, obj, bal, scope, index); }
        else if els.Some? { WalkGroupBalanceStmt(els.value, obj, bal, scope, index); }
      } else {
        var first := WalkGroupBalanceStmts(thn, obj, index);
        var second := NOTHING;
        if els.Some? {
          second := WalkElse(els.value, obj, index);
        } else {
          assert Even(NOTHING) by { EvenNothing(); }
        }
        FoldConditionalArms(bal, scope, [first, second]);
        assert (forall i :: 0 <= i < 2 ==> Even([first, second][i])) <==> Even(first) && Even(second) by {
          BothEven(first, second);
        }
      }
    case For(_, test, _, loop) => if test != Some(Cond.Known(false)) { FoldLoopBody(loop, obj, bal, scope, index); }
    case Range(loop) => FoldLoopBody(loop, obj, bal, scope, index);
    case Switch(_, clauses) =>
      var arms := WalkClauses(clauses, obj, true, index);
      FoldConditionalArms(bal, scope, arms);
    case Select(clauses) =>
      var arms := WalkClauses(clauses, obj, false, index);
      FoldConditionalArms(bal, scope, arms);
  }

  // An else branch, as a list of one statement.
  method WalkElse(s: GStmt, obj: Obj, index: Index) returns (r: Balance)
    ensures r == WalkOne(s, obj, index)
    decreases s, 2
  {
    hide G.WalkStmt;
    var bal := new Ledger();
    if !Skips(index, s, obj) { WalkGroupBalanceStmt(s, obj, bal, null, index); }
    r := bal.Now();
  }

  lemma EvenNothing()
    ensures Even(NOTHING)
  {}

  lemma BothEven(a: Balance, b: Balance)
    ensures (forall i :: 0 <= i < 2 ==> Even([a, b][i])) <==> Even(a) && Even(b)
  {
    assert [a, b][0] == a && [a, b][1] == b;
    if Even(a) && Even(b) {
      forall i | 0 <= i < 2 ensures Even([a, b][i]) { assert i == 0 || i == 1; }
    }
  }

  method WalkBlock(list: seq<GStmt>, obj: Obj, bal: Ledger, scope: LoopLedger?, index: Index)
    modifies bal, scope
    ensures View(bal, scope) == WalkAll(list, obj, old(View(bal, scope)), index)
    decreases list, 0
  {
    hide G.WalkStmt;
    for i := 0 to |list|
      invariant WalkAll(list[i..], obj, View(bal, scope), index) == WalkAll(list, obj, old(View(bal, scope)), index)
    {
      assert list[i..][1..] == list[i + 1..];
      WalkGroupBalanceStmt(list[i], obj, bal, scope, index);
    }
  }

  // A loop's own scope is folded into bal, whatever scope the loop itself stands in.
  method FoldLoopBody(loop: seq<GStmt>, obj: Obj, bal: Ledger, ghost scope: LoopLedger?, index: Index)
    modifies bal
    ensures View(bal, scope) == WalkLoop(loop, obj, old(View(bal, scope)), index)
    decreases loop, 1
  {
    hide WalkAll;
    var inner := new LoopLedger();
    WalkBlock(loop, obj, bal, inner, index);
    CloseLoopScopeInto(bal, inner);
  }

  // One balance per clause; a switch without a default may also run none of them.
  method WalkClauses(clauses: seq<Arm>, obj: Obj, mayMiss: bool, index: Index) returns (arms: seq<Balance>)
    ensures (forall i :: 0 <= i < |arms| ==> Even(arms[i])) <==> EvenArms(clauses, |clauses|, obj, index)
    decreases clauses, 1
  {
    hide WalkStmts, Even;
    arms := [];
    var hasDefault := false;
    for i := 0 to |clauses|
      invariant |arms| == i
      invariant (forall j :: 0 <= j < i ==> Even(arms[j])) <==> EvenArms(clauses, i, obj, index)
    {
      var bal := WalkGroupBalanceStmts(clauses[i].body, obj, index);
      ghost var before := arms;
      arms := arms + [bal];
      OneMore(before, bal);
      if clauses[i].isDefault { hasDefault := true; }
    }
    EvenNothing();
    if (mayMiss && !hasDefault) || |arms| == 0 {
      OneMore(arms, NOTHING);
      arms := arms + [NOTHING];
    }
  }

  lemma OneMore(arms: seq<Balance>, bal: Balance)
    ensures (forall j :: 0 <= j < |arms + [bal]| ==> Even((arms + [bal])[j])) <==>
      (forall j :: 0 <= j < |arms| ==> Even(arms[j])) && Even(bal)
  {
    var more := arms + [bal];
    assert more[|arms|] == bal && forall j :: 0 <= j < |arms| ==> more[j] == arms[j];
  }

  // computeGroupBalances: more Adds than Dones, for certain.
  method CountMismatch(body: seq<GStmt>, obj: Obj, index: Index) returns (mismatch: bool)
    ensures mismatch <==> var bal := WalkStmts(body, obj, index); bal.fullyKnown && bal.addTotal > bal.doneTotal
  {
    var bal := WalkGroupBalanceStmts(body, obj, index);
    return bal.fullyKnown && bal.addTotal > bal.doneTotal;
  }
}
