/**
 The executions the accounting is measured against: they exist, and their choices are free.
 */
module GroupRuns {
  import opened Wrappers
  import opened Syntax
  import opened GroupBalance
  import opened GroupCounts

  // Nothing blocks for good outside loops, which may run no round: no select without clauses.
  predicate CanEnd(s: GStmt)
    decreases s, 0
  {
    match s
    case Block(list) => CanEndAll(list)
    case Labeled(body) => CanEnd(body)
    case If(_, _, thn, els) => CanEndAll(thn) && (els.Some? ==> CanEnd(els.value))
    case Switch(_, clauses) => forall i :: 0 <= i < |clauses| ==> CanEndAll(clauses[i].body)
    case Select(clauses) => clauses != [] && forall i :: 0 <= i < |clauses| ==> CanEndAll(clauses[i].body)
    case _ => true
  }

  predicate CanEndAll(list: seq<GStmt>)
    decreases list, 0
  {
    list == [] || (CanEnd(list[0]) && CanEndAll(list[1..]))
  }

  // A constant Add adds its amount, a computed one any; calls on other groups do nothing.
  lemma ActDoes(a: Act, obj: Obj, n: int) returns (t: Tally)
    ensures Acts(a, obj, t)
    ensures t == match a
      case AddCall(o, amount, deferred) =>
        var m := if amount.Literal? then amount.n else n;
        if o != obj then IDLE else if deferred then Tally(0, m, 0, 0, 0) else Tally(m, 0, 0, 0, 0)
      case DoneCall(o, deferred) =>
        if o != obj then IDLE else if deferred then Tally(0, 0, 0, 1, 0) else Tally(0, 0, 1, 0, 0)
      case Spawn(worksFor, _) => if obj in worksFor then Tally(0, 0, 0, 0, 1) else IDLE
      case _ => IDLE
  {
    t := match a
      case AddCall(o, amount, deferred) =>
        var m := if amount.Literal? then amount.n else n;
        if o != obj then IDLE else if deferred then Tally(0, m, 0, 0, 0) else Tally(m, 0, 0, 0, 0)
      case DoneCall(o, deferred) =>
        if o != obj then IDLE else if deferred then Tally(0, 0, 0, 1, 0) else Tally(0, 0, 1, 0, 0)
      case Spawn(worksFor, _) => if obj in worksFor then Tally(0, 0, 0, 0, 1) else IDLE
      case _ => IDLE;
  }

  lemma OptDoes(a: Option<Act>, obj: Obj) returns (t: Tally)
    ensures OptActs(a, obj, t)
  {
    if a.Some? { t := ActDoes(a.value, obj, 0); } else { t := IDLE; }
  }

  // Every statement that need not block has an execution.
  lemma {:induction false} Runs(s: GStmt, obj: Obj) returns (e: Course)
    requires CanEnd(s)
    ensures IsExec(s, obj, e)
    decreases s, 1
  {
    match s {
      case Do(a) =>
        var t := ActDoes(a, obj, 0);
        e := Course(t, 0, []);
      case Block(list) =>
        var parts := RunsAll(list, obj);
        e := Course(IDLE, 0, parts);
      case Labeled(body) =>
        var inner := Runs(body, obj);
        e := Course(IDLE, 0, [inner]);
      case If(_, cond, _, _) => e := RunsArm(s, obj, if cond == Cond.Known(false) then 1 else 0);
      case For(init, _, _, _) =>
        var t := OptDoes(init, obj);
        e := Course(t, 0, []);
      case Range(_) => e := Course(IDLE, 0, []);
      case Switch(init, clauses) =>
        if clauses != [] { e := RunsClause(s, obj, 0); } else {
          var t := OptDoes(init, obj);
          e := Course(t, 0, []);
        }
      case Select(_) => e := RunsClause(s, obj, 0);
    }
  }

  lemma {:induction false} RunsAll(list: seq<GStmt>, obj: Obj) returns (parts: seq<Course>)
    requires CanEndAll(list)
    ensures AreExecs(list, obj, parts)
    decreases list, 0
  {
    parts := [];
    if list != [] {
      var first := Runs(list[0], obj);
      var rest := RunsAll(list[1..], obj);
      parts := [first] + rest;
      assert parts[1..] == rest;
    }
  }

  // An unknown condition goes either way.
  lemma RunsArm(s: GStmt, obj: Obj, arm: nat) returns (e: Course)
    requires s.If? && CanEnd(s) && (s.cond.Known? ==> s.cond.value == (arm == 0))
    ensures IsExec(s, obj, e) && e.arm == arm
    decreases s, 0
  {
    var t := OptDoes(s.init, obj);
    var parts := [];
    if arm == 0 { parts := RunsAll(s.thn, obj); }
    else if s.els.Some? {
      var inner := Runs(s.els.value, obj);
      parts := [inner];
    }
    e := Course(t, arm, parts);
  }

  // Any clause can be taken.
  lemma RunsClause(s: GStmt, obj: Obj, i: nat) returns (e: Course)
    requires (s.Switch? || s.Select?) && CanEnd(s) && i < |s.clauses|
    ensures IsExec(s, obj, e) && e.arm == i
    decreases s, 0
  {
    var t := IDLE;
    if s.Switch? { t := OptDoes(s.init, obj); }
    var parts := RunsAll(s.clauses[i].body, obj);
    e := Course(t, i, parts);
  }

  // A switch can be passed by exactly if it has no default.
  lemma PassesBy(s: GStmt, obj: Obj)
    requires s.Switch?
    ensures (exists e :: IsExec(s, obj, e) && e.arm >= |s.clauses|) <==>
      forall i :: 0 <= i < |s.clauses| ==> !s.clauses[i].isDefault
  {
    if forall i :: 0 <= i < |s.clauses| ==> !s.clauses[i].isDefault {
      var t := OptDoes(s.init, obj);
      assert IsExec(s, obj, Course(t, |s.clauses|, []));
    }
  }

  // A loop can run any number of rounds.
  lemma {:induction false} RunsRounds(loop: seq<GStmt>, post: Option<Act>, obj: Obj, n: nat)
    returns (rounds: seq<Course>)
    requires CanEndAll(loop)
    ensures AreRounds(loop, post, obj, rounds) && |rounds| == n
    decreases n
  {
    rounds := [];
    if n > 0 {
      var rest := RunsRounds(loop, post, obj, n - 1);
      var t := OptDoes(post, obj);
      var parts := RunsAll(loop, obj);
      rounds := [Course(t, 0, parts)] + rest;
      assert rounds[1..] == rest;
    }
  }

  lemma LoopRuns(s: GStmt, obj: Obj, n: nat) returns (e: Course)
    requires (s.Range? || (s.For? && s.test != Some(Cond.Known(false)))) && CanEndAll(s.loop)
    ensures IsExec(s, obj, e) && |e.parts| == n
  {
    var t := IDLE;
    if s.For? { t := OptDoes(s.init, obj); }
    var rounds := RunsRounds(s.loop, if s.For? then s.post else None, obj, n);
    e := Course(t, 0, rounds);
  }

  /****** The static conditions on plain lists ******/

  // A list of simple statements, blocks and labels has no header, and defers no Add exactly
  // if none of its simple statements does.
  lemma {:induction false} PlainConditions(s: GStmt, obj: Obj)
    requires Plain(s)
    ensures QuietHeaders(s, obj)
    ensures PromptAdds(s, obj) <==> forall a :: a in Line(s) && a.AddCall? && a.obj == obj ==> !a.deferred
    decreases s, 1
  {
    match s {
      case Do(_) =>
      case Block(list) => PlainListConditions(list, obj);
      case Labeled(body) => PlainConditions(body, obj);
    }
  }

  // An initialiser is quiet unless it calls Add or Done on the group or starts a worker for it.
  lemma InitQuiet(a: Act, cond: Cond, obj: Obj)
    ensures QuietHeaders(GStmt.If(Some(a), cond, [], None), obj) <==>
      !(a.AddCall? && a.obj == obj) && !(a.DoneCall? && a.obj == obj) && !StartsWorker(a, obj)
  {
    assert QuietHeadersIn([], obj);
  }

  lemma {:induction false} PlainListConditions(list: seq<GStmt>, obj: Obj)
    requires AllPlain(list)
    ensures QuietHeadersIn(list, obj)
    ensures PromptAddsIn(list, obj) <==> forall a :: a in LineOf(list) && a.AddCall? && a.obj == obj ==> !a.deferred
    decreases list, 0
  {
    hide Plain, Line, QuietHeaders, PromptAdds;
    if list != [] {
      PlainConditions(list[0], obj);
      PlainListConditions(list[1..], obj);
      assert forall i :: 1 <= i < |list| ==> list[i] == list[1..][i - 1];
      assert list == [list[0]] + list[1..];
      forall i | 0 <= i < |list| ensures QuietHeaders(list[i], obj) {
        if i > 0 { assert QuietHeaders(list[1..][i - 1], obj); }
      }
      assert PromptAddsIn(list, obj) <==> PromptAdds(list[0], obj) && PromptAddsIn(list[1..], obj) by {
        FirstPrompt(list, obj);
      }
    }
  }

  lemma FirstPrompt(list: seq<GStmt>, obj: Obj)
    requires list != []
    ensures PromptAddsIn(list, obj) <==> PromptAdds(list[0], obj) && PromptAddsIn(list[1..], obj)
  {
    hide PromptAdds;
    if PromptAdds(list[0], obj) && PromptAddsIn(list[1..], obj) {
      forall i | 0 <= i < |list| ensures PromptAdds(list[i], obj) {
        if i > 0 { assert list[1..][i - 1] == list[i]; }
      }
    }
  }
}
