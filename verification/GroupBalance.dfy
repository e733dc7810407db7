/**
 Counting Add and Done calls on one WaitGroup, and what the counts say about executions.

 The walker visits a body once.  In straight-line code it adds up literal amounts; in a loop
 it accepts only Add(1) calls matched by as many started workers; the arms of a conditional
 must each come out even.  Otherwise it gives up, and the count is not fully known.
 */
module GroupBalance {
  import opened Wrappers
  import opened Syntax

  type Obj = nat

  // The argument of an Add: a non-negative constant, or something computed at run time.
  datatype Amount = Literal(n: nat) | Computed

  // One simple statement, as far as groups go; worksFor are the groups a started worker is
  // recognised to call Done on; the rest is only mentioned.
  datatype Act =
    | AddCall(obj: Obj, amount: Amount, deferred: bool)
    | DoneCall(obj: Obj, deferred: bool)
    | WaitCall(obj: Obj)
    | Spawn(worksFor: set<Obj>, mentions: set<Obj>)
    | Other(mentions: set<Obj>)

  datatype GStmt =
    | Do(act: Act)
    | Block(list: seq<GStmt>)
    | Labeled(body: GStmt)
    | If(init: Option<Act>, cond: Cond, thn: seq<GStmt>, els: Option<GStmt>)
    | For(init: Option<Act>, test: Option<Cond>, post: Option<Act>, loop: seq<GStmt>)
    | Range(loop: seq<GStmt>)
    | Switch(init: Option<Act>, clauses: seq<Arm>)
    | Select(clauses: seq<Arm>)

  datatype Arm = Arm(isDefault: bool, body: seq<GStmt>)

  datatype Balance = Balance(addTotal: nat, doneTotal: nat, spawned: nat, fullyKnown: bool)

  datatype Scope = Scope(addOnes: nat, spawnedDones: nat, otherActivity: bool)

  // What the walker fills in: a balance and, inside a loop, that loop's scope.
  datatype Count = Straight(bal: Balance) | InLoop(bal: Balance, scope: Scope)

  const NOTHING := Balance(0, 0, 0, true)

  /****** The walker ******/

  function NoteAdd(c: Count, amount: Amount): Count {
    match c
    case Straight(bal) =>
      if amount.Literal? then Straight(bal.(addTotal := bal.addTotal + amount.n))
      else Straight(bal.(fullyKnown := false))
    case InLoop(bal, scope) =>
      if amount == Literal(1) then InLoop(bal, scope.(addOnes := scope.addOnes + 1))
      else InLoop(bal, scope.(otherActivity := true))
  }

  function NoteDone(c: Count): Count {
    match c
    case Straight(bal) => Straight(bal.(doneTotal := bal.doneTotal + 1))
    case InLoop(bal, scope) => InLoop(bal, scope.(otherActivity := true))
  }

  function NoteSpawnedDone(c: Count): Count {
    match c
    case Straight(bal) => Straight(bal.(doneTotal := bal.doneTotal + 1, spawned := bal.spawned + 1))
    case InLoop(bal, scope) => InLoop(bal, scope.(spawnedDones := scope.spawnedDones + 1))
  }

  function WalkAct(a: Act, obj: Obj, c: Count): Count {
    match a
    case AddCall(o, amount, _) => if o == obj then NoteAdd(c, amount) else c
    case DoneCall(o, _) => if o == obj then NoteDone(c) else c
    case Spawn(worksFor, _) => if obj in worksFor then NoteSpawnedDone(c) else c
    case _ => c
  }

  predicate Even(arm: Balance) {
    arm.fullyKnown && arm.addTotal == arm.doneTotal
  }

  function FoldArms(c: Count, safe: bool): Count {
    if safe then c
    else match c
      case Straight(bal) => Straight(bal.(fullyKnown := false))
      case InLoop(bal, scope) => InLoop(bal, scope.(otherActivity := true))
  }

  function CloseScope(bal: Balance, scope: Scope): Balance {
    if scope.otherActivity || scope.addOnes != scope.spawnedDones then bal.(fullyKnown := false) else bal
  }

  // The skip index: nothing, or the groups recorded for each statement.
  datatype Index = NoIndex | Recorded(groups: GStmt -> set<Obj>)

  predicate Skips(index: Index, s: GStmt, obj: Obj) {
    index.Recorded? && obj !in index.groups(s)
  }

  // At the head of a list, statements the index does not record the group for are skipped.
  function WalkStmt(s: GStmt, obj: Obj, c: Count, index: Index): (r: Count)
    ensures r.InLoop? <==> c.InLoop?
    decreases s, 1
  {
    match s
    case Do(a) => WalkAct(a, obj, c)
    case Block(list) => WalkAll(list, obj, c, index)
    case Labeled(body) => WalkStmt(body, obj, c, index)
    case If(_, cond, thn, els) =>
      if cond.Known? then
        if cond.value then WalkAll(thn, obj, c, index)
        else if els.Some? then WalkStmt(els.value, obj, c, index)
        else c
      else FoldArms(c, Even(WalkStmts(thn, obj, index)) && (els.None? || Even(WalkOne(els.value, obj, index))))
    case For(_, test, _, loop) => if test == Some(Cond.Known(false)) then c else WalkLoop(loop, obj, c, index)
    case Range(loop) => WalkLoop(loop, obj, c, index)
    case Switch(_, clauses) => FoldArms(c, EvenArms(clauses, |clauses|, obj, index))
    case Select(clauses) => FoldArms(c, EvenArms(clauses, |clauses|, obj, index))
  }

  // The statements of a block or loop body, one after the other.
  function WalkAll(list: seq<GStmt>, obj: Obj, c: Count, index: Index): (r: Count)
    ensures r.InLoop? <==> c.InLoop?
    decreases list, 0
  {
    if list == [] then c else WalkAll(list[1..], obj, WalkStmt(list[0], obj, c, index), index)
  }

  // A fresh balance for a body or an arm; this is where the index skips.
  function WalkStmts(list: seq<GStmt>, obj: Obj, index: Index): Balance
    decreases list, 1
  {
    WalkUnskipped(list, obj, NOTHING, index)
  }

  function WalkUnskipped(list: seq<GStmt>, obj: Obj, bal: Balance, index: Index): Balance
    decreases list, 0
  {
    if list == [] then bal
    else if Skips(index, list[0], obj) then WalkUnskipped(list[1..], obj, bal, index)
    else WalkUnskipped(list[1..], obj, WalkStmt(list[0], obj, Straight(bal), index).bal, index)
  }

  // WalkStmts on a one-statement list.
  function WalkOne(s: GStmt, obj: Obj, index: Index): Balance
    decreases s, 2
  {
    if Skips(index, s, obj) then NOTHING else WalkStmt(s, obj, Straight(NOTHING), index).bal
  }

  function WalkLoop(loop: seq<GStmt>, obj: Obj, c: Count, index: Index): (r: Count)
    ensures r == WithBalance(c, r.bal)
    decreases loop, 1
  {
    var r := WalkAll(loop, obj, InLoop(c.bal, Scope(0, 0, false)), index);
    WithBalance(c, CloseScope(r.bal, r.scope))
  }

  function WithBalance(c: Count, bal: Balance): Count {
    match c
    case Straight(_) => Straight(bal)
    case InLoop(_, scope) => InLoop(bal, scope)
  }

  predicate EvenArms(clauses: seq<Arm>, n: nat, obj: Obj, index: Index)
    requires n <= |clauses|
    decreases clauses, n
  {
    n == 0 || (EvenArms(clauses, n - 1, obj, index) && Even(WalkStmts(clauses[n - 1].body, obj, index)))
  }

  /****** The skip index ******/

  function ActMentions(a: Act): set<Obj> {
    match a
    case AddCall(o, _, _) => {o}
    case DoneCall(o, _) => {o}
    case WaitCall(o) => {o}
    case Spawn(worksFor, mentions) => worksFor + mentions
    case Other(mentions) => mentions
  }

  function OptMentions(a: Option<Act>): set<Obj> {
    if a.Some? then ActMentions(a.value) else {}
  }

  // The groups that occur anywhere beneath a statement.
  function Mentions(s: GStmt): set<Obj>
    decreases s, 0
  {
    match s
    case Do(a) => ActMentions(a)
    case Block(list) => MentionsAll(list)
    case Labeled(body) => Mentions(body)
    case If(init, _, thn, els) => OptMentions(init) + MentionsAll(thn) + if els.Some? then Mentions(els.value) else {}
    case For(init, _, post, loop) => OptMentions(init) + OptMentions(post) + MentionsAll(loop)
    case Range(loop) => MentionsAll(loop)
    case Switch(init, clauses) => OptMentions(init) + MentionsArms(clauses, |clauses|)
    case Select(clauses) => MentionsArms(clauses, |clauses|)
  }

  function MentionsAll(list: seq<GStmt>): set<Obj>
    decreases list, 0
  {
    if list == [] then {} else Mentions(list[0]) + MentionsAll(list[1..])
  }

  function MentionsArms(clauses: seq<Arm>, n: nat): set<Obj>
    requires n <= |clauses|
    decreases clauses, n
  {
    if n == 0 then {} else MentionsArms(clauses, n - 1) + MentionsAll(clauses[n - 1].body)
  }

  // The group is recorded wherever it is mentioned.  More may be recorded: the code marks
  // identifiers in conditions, tags and communications as well.
  ghost predicate Covering(index: Index, obj: Obj) {
    index.Recorded? ==> forall s: GStmt :: obj in Mentions(s) ==> obj in index.groups(s)
  }

  // A statement that does not mention the group leaves every count alone.
  lemma {:induction false} Unmentioned(s: GStmt, obj: Obj, c: Count)
    requires obj !in Mentions(s)
    ensures WalkStmt(s, obj, c, NoIndex) == c
    decreases s, 1
  {
    match s {
      case Do(a) =>
      case Block(list) => UnmentionedAll(list, obj, c);
      case Labeled(body) => Unmentioned(body, obj, c);
      case If(_, _, thn, els) =>
        UnmentionedAll(thn, obj, c);
        UnmentionedStmts(thn, obj, NOTHING);
        if els.Some? {
          Unmentioned(els.value, obj, c);
          Unmentioned(els.value, obj, Straight(NOTHING));
        }
      case For(_, _, _, loop) => UnmentionedAll(loop, obj, InLoop(c.bal, Scope(0, 0, false)));
      case Range(loop) => UnmentionedAll(loop, obj, InLoop(c.bal, Scope(0, 0, false)));
      case Switch(_, clauses) => UnmentionedArms(clauses, |clauses|, obj);
      case Select(clauses) => UnmentionedArms(clauses, |clauses|, obj);
    }
  }

  lemma UnmentionedAll(list: seq<GStmt>, obj: Obj, c: Count)
    requires obj !in MentionsAll(list)
    ensures WalkAll(list, obj, c, NoIndex) == c
    decreases list, 0
  {
    if list != [] {
      Unmentioned(list[0], obj, c);
      UnmentionedAll(list[1..], obj, c);
    }
  }

  lemma UnmentionedStmts(list: seq<GStmt>, obj: Obj, bal: Balance)
    requires obj !in MentionsAll(list)
    ensures WalkUnskipped(list, obj, bal, NoIndex) == bal
    decreases list, 0
  {
    if list != [] {
      Unmentioned(list[0], obj, Straight(bal));
      UnmentionedStmts(list[1..], obj, bal);
    }
  }

  lemma UnmentionedArms(clauses: seq<Arm>, n: nat, obj: Obj)
    requires n <= |clauses| && obj !in MentionsArms(clauses, n)
    ensures EvenArms(clauses, n, obj, NoIndex)
    decreases clauses, n
  {
    if n > 0 {
      UnmentionedArms(clauses, n - 1, obj);
      UnmentionedStmts(clauses[n - 1].body, obj, NOTHING);
    }
  }

  // An index that covers the group never changes the outcome.
  lemma {:induction false} IndexRefines(s: GStmt, obj: Obj, c: Count, index: Index)
    requires Covering(index, obj)
    ensures WalkStmt(s, obj, c, index) == WalkStmt(s, obj, c, NoIndex)
    decreases s, 1
  {
    match s {
      case Do(a) =>
      case Block(list) => IndexRefinesAll(list, obj, c, index);
      case Labeled(body) => IndexRefines(body, obj, c, index);
      case If(_, _, thn, els) =>
        IndexRefinesAll(thn, obj, c, index);
        IndexRefinesStmts(thn, obj, NOTHING, index);
        if els.Some? {
          IndexRefines(els.value, obj, c, index);
          IndexRefines(els.value, obj, Straight(NOTHING), index);
          if Skips(index, els.value, obj) { Unmentioned(els.value, obj, Straight(NOTHING)); }
        }
      case For(_, _, _, loop) => IndexRefinesAll(loop, obj, InLoop(c.bal, Scope(0, 0, false)), index);
      case Range(loop) => IndexRefinesAll(loop, obj, InLoop(c.bal, Scope(0, 0, false)), index);
      case Switch(_, clauses) => IndexRefinesArms(clauses, |clauses|, obj, index);
      case Select(clauses) => IndexRefinesArms(clauses, |clauses|, obj, index);
    }
  }

  lemma IndexRefinesAll(list: seq<GStmt>, obj: Obj, c: Count, index: Index)
    requires Covering(index, obj)
    ensures WalkAll(list, obj, c, index) == WalkAll(list, obj, c, NoIndex)
    decreases list, 0
  {
    if list != [] {
      IndexRefines(list[0], obj, c, index);
      IndexRefinesAll(list[1..], obj, WalkStmt(list[0], obj, c, NoIndex), index);
    }
  }

  lemma IndexRefinesStmts(list: seq<GStmt>, obj: Obj, bal: Balance, index: Index)
    requires Covering(index, obj)
    ensures WalkUnskipped(list, obj, bal, index) == WalkUnskipped(list, obj, bal, NoIndex)
    decreases list, 0
  {
    if list != [] {
      if Skips(index, list[0], obj) { Unmentioned(list[0], obj, Straight(bal)); }
      IndexRefines(list[0], obj, Straight(bal), index);
      IndexRefinesStmts(list[1..], obj, WalkStmt(list[0], obj, Straight(bal), NoIndex).bal, index);
    }
  }

  lemma IndexRefinesArms(clauses: seq<Arm>, n: nat, obj: Obj, index: Index)
    requires Covering(index, obj) && n <= |clauses|
    ensures EvenArms(clauses, n, obj, index) == EvenArms(clauses, n, obj, NoIndex)
    decreases clauses, n
  {
    if n > 0 {
      IndexRefinesArms(clauses, n - 1, obj, index);
      IndexRefinesStmts(clauses[n - 1].body, obj, NOTHING, index);
    }
  }

  /****** Executions ******/

  // What an execution that completes normally does to the group: amounts added and Dones
  // called on the spot, the same by calls it deferred, and recognised workers started.
  datatype Tally = Tally(adds: int, lateAdds: int, dones: nat, lateDones: nat, spawns: nat)

  const IDLE := Tally(0, 0, 0, 0, 0)

  function Plus(t: Tally, u: Tally): Tally {
    Tally(t.adds + u.adds, t.lateAdds + u.lateAdds, t.dones + u.dones, t.lateDones + u.lateDones, t.spawns + u.spawns)
  }

  // The counter's change once deferred calls have run and every worker has called Done once.
  function Net(t: Tally): int {
    t.adds + t.lateAdds - t.dones - t.lateDones - t.spawns
  }

  predicate Acts(a: Act, obj: Obj, t: Tally) {
    match a
    case AddCall(o, amount, deferred) =>
      if o != obj then t == IDLE
      else
        var n := if deferred then t.lateAdds else t.adds;
        (amount.Literal? ==> n == amount.n) && t == if deferred then IDLE.(lateAdds := n) else IDLE.(adds := n)
    case DoneCall(o, deferred) => t == if o != obj then IDLE else if deferred then IDLE.(lateDones := 1)
      else IDLE.(dones := 1)
    case Spawn(worksFor, _) => t == if obj in worksFor then IDLE.(spawns := 1) else IDLE
    case _ => t == IDLE
  }

  predicate OptActs(a: Option<Act>, obj: Obj, t: Tally) {
    if a.Some? then Acts(a.value, obj, t) else t == IDLE
  }

  // An execution that completes normally: what the statement does itself (a simple statement,
  // or the initialiser of a compound one, or the post statement of a round), the arm it
  // takes, and the executions of the statements or rounds inside it.
  datatype Course = Course(own: Tally, arm: nat, parts: seq<Course>)

  function TotalOf(e: Course): Tally {
    Plus(e.own, SumOf(e.parts))
  }

  function SumOf(parts: seq<Course>): Tally {
    if parts == [] then IDLE else Plus(TotalOf(parts[0]), SumOf(parts[1..]))
  }

  // Known conditions are obeyed, unknown ones and the clauses of a switch or select are free,
  // loops run any number of rounds.  break, continue, goto, fallthrough and return do not
  // complete normally.
  predicate IsExec(s: GStmt, obj: Obj, e: Course)
    decreases s, 1
  {
    match s
    case Do(a) => Acts(a, obj, e.own) && e.parts == []
    case Block(list) => e.own == IDLE && AreExecs(list, obj, e.parts)
    case Labeled(body) => e.own == IDLE && |e.parts| == 1 && IsExec(body, obj, e.parts[0])
    case If(init, cond, thn, els) =>
      && OptActs(init, obj, e.own) && Allows(cond, e.arm == 0)
      && if e.arm == 0 then AreExecs(thn, obj, e.parts)
         else if els.Some? then |e.parts| == 1 && IsExec(els.value, obj, e.parts[0])
         else e.parts == []
    case For(init, test, post, loop) =>
      OptActs(init, obj, e.own) && (test == Some(Cond.Known(false)) ==> e.parts == [])
        && AreRounds(loop, post, obj, e.parts)
    case Range(loop) => e.own == IDLE && AreRounds(loop, None, obj, e.parts)
    case Switch(init, clauses) =>
      OptActs(init, obj, e.own) && if e.arm < |clauses| then AreExecs(clauses[e.arm].body, obj, e.parts)
        else NoDefault(clauses) && e.parts == []
    case Select(clauses) => e.own == IDLE && e.arm < |clauses| && AreExecs(clauses[e.arm].body, obj, e.parts)
  }

  predicate AreExecs(list: seq<GStmt>, obj: Obj, parts: seq<Course>)
    decreases list, 0
  {
    |parts| == |list| && (list == [] || (IsExec(list[0], obj, parts[0]) && AreExecs(list[1..], obj, parts[1..])))
  }

  predicate AreRounds(loop: seq<GStmt>, post: Option<Act>, obj: Obj, rounds: seq<Course>)
    decreases loop, 1, |rounds|
  {
    rounds == [] ||
    (OptActs(post, obj, rounds[0].own) && AreExecs(loop, obj, rounds[0].parts)
      && AreRounds(loop, post, obj, rounds[1..]))
  }

  predicate NoDefault(clauses: seq<Arm>) {
    forall i :: 0 <= i < |clauses| ==> !clauses[i].isDefault
  }

  /****** Where the walker does not look ******/

  // What initialisers and post statements do to the counter in an execution.
  function HeaderNet(s: GStmt, obj: Obj, e: Course): int
    requires IsExec(s, obj, e)
    decreases s, 1
  {
    match s
    case Do(_) => 0
    case Block(list) => HeadersIn(list, obj, e.parts)
    case Labeled(body) => HeaderNet(body, obj, e.parts[0])
    case If(_, _, thn, els) =>
      Net(e.own) + if e.arm == 0 then HeadersIn(thn, obj, e.parts)
        else if els.Some? then HeaderNet(els.value, obj, e.parts[0]) else 0
    case For(_, _, post, loop) => Net(e.own) + HeadersOfRounds(loop, post, obj, e.parts)
    case Range(loop) => HeadersOfRounds(loop, None, obj, e.parts)
    case Switch(_, clauses) => Net(e.own) + if e.arm < |clauses| then HeadersIn(clauses[e.arm].body, obj, e.parts)
      else 0
    case Select(clauses) => HeadersIn(clauses[e.arm].body, obj, e.parts)
  }

  function HeadersIn(list: seq<GStmt>, obj: Obj, parts: seq<Course>): int
    requires AreExecs(list, obj, parts)
    decreases list, 0
  {
    if list == [] then 0 else HeaderNet(list[0], obj, parts[0]) + HeadersIn(list[1..], obj, parts[1..])
  }

  function HeadersOfRounds(loop: seq<GStmt>, post: Option<Act>, obj: Obj, rounds: seq<Course>): int
    requires AreRounds(loop, post, obj, rounds)
    decreases loop, 1, |rounds|
  {
    if rounds == [] then 0
    else Net(rounds[0].own) + HeadersIn(loop, obj, rounds[0].parts) + HeadersOfRounds(loop, post, obj, rounds[1..])
  }

  // if wg.Add(1); c {}: counted as nothing, though every execution adds one.
  const HEADER_ADD := GStmt.If(Some(AddCall(0, Literal(1), false)), Unknown, [], None)

  lemma HeaderAddMissed(e: Course)
    requires IsExec(HEADER_ADD, 0, e)
    ensures WalkStmt(HEADER_ADD, 0, Straight(NOTHING), NoIndex) == Straight(NOTHING) && TotalOf(e).adds == 1
      && HeaderNet(HEADER_ADD, 0, e) == 1
  {
    HeaderWalk();
    hide WalkStmt;
    HeaderExec(e.own, e.parts, e.arm);
    assert TotalOf(e) == Plus(e.own, IDLE);
  }

  lemma HeaderWalk()
    ensures WalkStmt(HEADER_ADD, 0, Straight(NOTHING), NoIndex) == Straight(NOTHING)
  {
    assert WalkStmts([], 0, NoIndex) == NOTHING;
  }

  lemma HeaderExec(own: Tally, parts: seq<Course>, arm: nat)
    requires IsExec(HEADER_ADD, 0, Course(own, arm, parts))
    ensures own == IDLE.(adds := 1) && parts == [] && Net(own) == 1 && HeadersIn([], 0, []) == 0
  {}

  /****** Soundness ******/

  // Nothing has gone unaccounted for so far, and how far the counts stand above zero.
  predicate Sure(c: Count) {
    c.bal.fullyKnown && (c.InLoop? ==> !c.scope.otherActivity)
  }

  function Standing(c: Count): int {
    c.bal.addTotal - c.bal.doneTotal + if c.InLoop? then c.scope.addOnes - c.scope.spawnedDones else 0
  }

  // Walking from c to r accounts exactly for what an execution does.
  ghost predicate Accounts(c: Count, r: Count, net: int) {
    Sure(r) ==> Sure(c) && net == Standing(r) - Standing(c)
  }

  // Inside a loop the totals stay as they are, and counts are never given back.
  ghost predicate Monotone(c: Count, r: Count) {
    && (c.InLoop? ==>
      r.InLoop? && r.bal.addTotal == c.bal.addTotal && r.bal.doneTotal == c.bal.doneTotal
        && r.bal.spawned == c.bal.spawned)
    && (Sure(r) ==> Sure(c))
  }

  lemma {:induction false} WalkMonotone(s: GStmt, obj: Obj, c: Count)
    ensures Monotone(c, WalkStmt(s, obj, c, NoIndex))
    decreases s, 1
  {
    match s {
      case Do(a) =>
      case Block(list) => WalkAllMonotone(list, obj, c);
      case Labeled(body) => WalkMonotone(body, obj, c);
      case If(_, _, thn, els) =>
        WalkAllMonotone(thn, obj, c);
        if els.Some? { WalkMonotone(els.value, obj, c); }
      case For(_, _, _, loop) => WalkLoopMonotone(loop, obj, c);
      case Range(loop) => WalkLoopMonotone(loop, obj, c);
      case _ =>
    }
  }

  lemma WalkLoopMonotone(loop: seq<GStmt>, obj: Obj, c: Count)
    ensures Monotone(c, WalkLoop(loop, obj, c, NoIndex))
    decreases loop, 1
  {
    hide WalkAll;
    WalkAllMonotone(loop, obj, InLoop(c.bal, Scope(0, 0, false)));
  }

  lemma WalkAllMonotone(list: seq<GStmt>, obj: Obj, c: Count)
    ensures Monotone(c, WalkAll(list, obj, c, NoIndex))
    decreases list, 0
  {
    if list != [] {
      WalkMonotone(list[0], obj, c);
      WalkAllMonotone(list[1..], obj, WalkStmt(list[0], obj, c, NoIndex));
    }
  }

  lemma NetOf(e: Course)
    ensures Net(TotalOf(e)) == Net(e.own) + Net(SumOf(e.parts))
    ensures e.parts == [] ==> Net(TotalOf(e)) == Net(e.own)
    ensures |e.parts| == 1 ==> Net(TotalOf(e)) == Net(e.own) + Net(TotalOf(e.parts[0]))
  {
    if |e.parts| == 1 { SumNet(e.parts); assert e.parts[1..] == []; }
  }

  lemma SumNet(parts: seq<Course>)
    ensures Net(SumOf(parts)) == if parts == [] then 0 else Net(TotalOf(parts[0])) + Net(SumOf(parts[1..]))
  {}

  lemma IdleNet()
    ensures Net(IDLE) == 0
  {}

  lemma {:induction false} WalkSound(s: GStmt, obj: Obj, c: Count, e: Course)
    requires IsExec(s, obj, e)
    ensures Accounts(c, WalkStmt(s, obj, c, NoIndex), Net(TotalOf(e)) - HeaderNet(s, obj, e))
    decreases s, 1
  {
    hide Accounts, AreExecs, AreRounds, Even, WalkAll, WalkLoop, EvenArms, FoldArms, Acts, OptActs, Net, TotalOf, SumOf,
      NoDefault;
    NetOf(e);
    IdleNet();
    match s {
      case Do(a) => ActSound(a, obj, c, e.own);
      case Block(list) => WalkAllSound(list, obj, c, e.parts);
      case Labeled(body) => WalkSound(body, obj, c, e.parts[0]);
      case If(_, _, _, _) => IfSound(s, obj, c, e);
      case For(init, test, post, loop) =>
        if test == Some(Cond.Known(false)) { Untouched(c); } else { LoopSound(loop, post, obj, c, e.parts); }
      case Range(loop) => LoopSound(loop, None, obj, c, e.parts);
      case Switch(init, clauses) =>
        if EvenArms(clauses, |clauses|, obj, NoIndex) && e.arm < |clauses| { ArmSound(clauses, |clauses|, obj, e); }
        Folded(c, EvenArms(clauses, |clauses|, obj, NoIndex), Net(TotalOf(e)) - HeaderNet(s, obj, e));
      case Select(clauses) =>
        if EvenArms(clauses, |clauses|, obj, NoIndex) { ArmSound(clauses, |clauses|, obj, e); }
        Folded(c, EvenArms(clauses, |clauses|, obj, NoIndex), Net(TotalOf(e)) - HeaderNet(s, obj, e));
    }
  }

  lemma ActSound(a: Act, obj: Obj, c: Count, t: Tally)
    requires Acts(a, obj, t)
    ensures Accounts(c, WalkAct(a, obj, c), Net(t))
  {}

  lemma IfSound(s: GStmt, obj: Obj, c: Count, e: Course)
    requires s.If? && IsExec(s, obj, e)
    ensures Accounts(c, WalkStmt(s, obj, c, NoIndex), Net(TotalOf(e)) - HeaderNet(s, obj, e))
    decreases s, 0
  {
    hide Accounts, AreExecs, WalkAll, WalkStmts, WalkOne, Even, FoldArms, Net, TotalOf, SumOf, OptActs;
    NetOf(e);
    if s.cond.Known? {
      if s.cond.value { WalkAllSound(s.thn, obj, c, e.parts); }
      else if s.els.Some? { WalkSound(s.els.value, obj, c, e.parts[0]); }
      else { Untouched(c); }
    } else {
      var safe := Even(WalkStmts(s.thn, obj, NoIndex)) && (s.els.None? || Even(WalkOne(s.els.value, obj, NoIndex)));
      if safe && e.arm == 0 {
        StmtsSound(s.thn, obj, e.parts);
        EvenNets(WalkStmts(s.thn, obj, NoIndex), Net(SumOf(e.parts)) - HeadersIn(s.thn, obj, e.parts));
      } else if safe && s.els.Some? {
        OneSound(s.els.value, obj, e.parts[0]);
        EvenNets(WalkOne(s.els.value, obj, NoIndex),
          Net(TotalOf(e.parts[0])) - HeaderNet(s.els.value, obj, e.parts[0]));
      }
      Folded(c, safe, Net(TotalOf(e)) - HeaderNet(s, obj, e));
    }
  }

  lemma OneSound(s: GStmt, obj: Obj, e: Course)
    requires IsExec(s, obj, e)
    ensures Accounts(Straight(NOTHING), Straight(WalkOne(s, obj, NoIndex)), Net(TotalOf(e)) - HeaderNet(s, obj, e))
    decreases s, 2
  {
    hide Accounts, WalkStmt, Net, TotalOf, IsExec;
    WalkSound(s, obj, Straight(NOTHING), e);
  }

  // An arm that comes out even leaves the counter where it was.
  lemma EvenNets(bal: Balance, net: int)
    requires Even(bal) && Accounts(Straight(NOTHING), Straight(bal), net)
    ensures net == 0
  {}

  lemma Untouched(c: Count)
    ensures Accounts(c, c, 0)
  {}

  lemma Folded(c: Count, safe: bool, net: int)
    requires safe ==> net == 0
    ensures Accounts(c, FoldArms(c, safe), net)
  {}

  lemma WalkAllSound(list: seq<GStmt>, obj: Obj, c: Count, parts: seq<Course>)
    requires AreExecs(list, obj, parts)
    ensures Accounts(c, WalkAll(list, obj, c, NoIndex), Net(SumOf(parts)) - HeadersIn(list, obj, parts))
    decreases list, 0
  {
    hide WalkStmt, IsExec, Net, TotalOf, SumOf;
    SumNet(parts);
    if list != [] {
      WalkSound(list[0], obj, c, parts[0]);
      WalkAllSound(list[1..], obj, WalkStmt(list[0], obj, c, NoIndex), parts[1..]);
    }
  }

  lemma {:induction false} UnskippedIsAll(list: seq<GStmt>, obj: Obj, bal: Balance)
    ensures Straight(WalkUnskipped(list, obj, bal, NoIndex)) == WalkAll(list, obj, Straight(bal), NoIndex)
    decreases list
  {
    if list != [] {
      UnskippedIsAll(list[1..], obj, WalkStmt(list[0], obj, Straight(bal), NoIndex).bal);
    }
  }

  lemma StmtsSound(list: seq<GStmt>, obj: Obj, parts: seq<Course>)
    requires AreExecs(list, obj, parts)
    ensures Accounts(Straight(NOTHING), Straight(WalkStmts(list, obj, NoIndex)),
      Net(SumOf(parts)) - HeadersIn(list, obj, parts))
    decreases list, 1
  {
    hide Accounts, WalkAll, WalkUnskipped, AreExecs, HeadersIn, SumOf, Net;
    UnskippedIsAll(list, obj, NOTHING);
    WalkAllSound(list, obj, Straight(NOTHING), parts);
  }

  // A loop that is accounted for leaves the counter where it was, however often it runs.
  lemma LoopSound(loop: seq<GStmt>, post: Option<Act>, obj: Obj, c: Count, rounds: seq<Course>)
    requires AreRounds(loop, post, obj, rounds)
    ensures Accounts(c, WalkLoop(loop, obj, c, NoIndex), Net(SumOf(rounds)) - HeadersOfRounds(loop, post, obj, rounds))
    decreases loop, 1, |rounds|
  {
    hide AreExecs, WalkAll, Net, TotalOf, SumOf;
    var inner := InLoop(c.bal, Scope(0, 0, false));
    WalkAllMonotone(loop, obj, inner);
    SumNet(rounds);
    if rounds != [] {
      WalkAllSound(loop, obj, inner, rounds[0].parts);
      NetOf(rounds[0]);
      LoopSound(loop, post, obj, c, rounds[1..]);
    }
  }

  lemma ArmSound(clauses: seq<Arm>, n: nat, obj: Obj, e: Course)
    requires e.arm < n <= |clauses| && AreExecs(clauses[e.arm].body, obj, e.parts)
    requires EvenArms(clauses, n, obj, NoIndex)
    ensures Net(SumOf(e.parts)) == HeadersIn(clauses[e.arm].body, obj, e.parts)
    decreases clauses, n
  {
    hide AreExecs, WalkStmts, Net, SumOf;
    if e.arm < n - 1 { ArmSound(clauses, n - 1, obj, e); }
    else {
      StmtsSound(clauses[n - 1].body, obj, e.parts);
      EvenNets(WalkStmts(clauses[n - 1].body, obj, NoIndex),
        Net(SumOf(e.parts)) - HeadersIn(clauses[n - 1].body, obj, e.parts));
    }
  }

  // The accounting theorem.  If the count is fully known then, whatever an execution does and
  // however many of its workers (at most once each) call Done, the counter ends at least as
  // high as the count and the headers say, and exactly there when every worker calls Done.
  // The walker never looks at headers: its count alone is right exactly for the executions
  // in which they leave the counter as it is.
  lemma BalanceSound(list: seq<GStmt>, obj: Obj, index: Index, parts: seq<Course>, workerDones: nat)
    requires Covering(index, obj) && AreExecs(list, obj, parts) && workerDones <= SumOf(parts).spawns
    ensures var bal, t := WalkStmts(list, obj, index), SumOf(parts);
      var counter := t.adds + t.lateAdds - t.dones - t.lateDones - workerDones;
      var count := bal.addTotal - bal.doneTotal + HeadersIn(list, obj, parts);
      bal.fullyKnown ==> counter >= count && (counter == count <==> workerDones == t.spawns)
  {
    hide AreExecs, WalkUnskipped, SumOf, HeadersIn;
    IndexRefinesStmts(list, obj, NOTHING, index);
    StmtsSound(list, obj, parts);
  }

  /****** Bodies on which the count alone is right ******/

  predicate Acting(a: Act, obj: Obj) {
    match a
    case AddCall(o, _, _) => o == obj
    case DoneCall(o, _) => o == obj
    case Spawn(worksFor, _) => obj in worksFor
    case _ => false
  }

  predicate Quiet(a: Option<Act>, obj: Obj) {
    a.Some? ==> !Acting(a.value, obj)
  }

  // No initialiser and no post statement acts on the group.
  predicate QuietHeaders(s: GStmt, obj: Obj)
    decreases s, 0
  {
    match s
    case Do(_) => true
    case Block(list) => QuietHeadersIn(list, obj)
    case Labeled(body) => QuietHeaders(body, obj)
    case If(init, _, thn, els) => Quiet(init, obj) && QuietHeadersIn(thn, obj)
      && (els.Some? ==> QuietHeaders(els.value, obj))
    case For(init, _, post, loop) => Quiet(init, obj) && Quiet(post, obj) && QuietHeadersIn(loop, obj)
    case Range(loop) => QuietHeadersIn(loop, obj)
    case Switch(init, clauses) => Quiet(init, obj) && forall i :: 0 <= i < |clauses| ==>
      QuietHeadersIn(clauses[i].body, obj)
    case Select(clauses) => forall i :: 0 <= i < |clauses| ==> QuietHeadersIn(clauses[i].body, obj)
  }

  predicate QuietHeadersIn(list: seq<GStmt>, obj: Obj)
    decreases list, 0
  {
    forall i :: 0 <= i < |list| ==> QuietHeaders(list[i], obj)
  }

  lemma QuietNet(a: Option<Act>, obj: Obj, t: Tally)
    requires Quiet(a, obj) && OptActs(a, obj, t)
    ensures Net(t) == 0
  {}

  lemma {:induction false} QuietHeader(s: GStmt, obj: Obj, e: Course)
    requires IsExec(s, obj, e) && QuietHeaders(s, obj)
    ensures HeaderNet(s, obj, e) == 0
    decreases s, 1
  {
    hide AreExecs, AreRounds, OptActs, Quiet, Net, QuietHeadersIn;
    match s {
      case Do(_) =>
      case Block(list) => QuietList(list, obj, e.parts);
      case Labeled(body) => QuietHeader(body, obj, e.parts[0]);
      case If(init, _, thn, els) =>
        QuietNet(init, obj, e.own);
        if e.arm == 0 { QuietList(thn, obj, e.parts); } else if els.Some? { QuietHeader(els.value, obj, e.parts[0]); }
      case For(init, _, post, loop) =>
        QuietNet(init, obj, e.own);
        QuietRounds(loop, post, obj, e.parts);
      case Range(loop) => assert Quiet(None, obj) by { NoneQuiet(obj); } QuietRounds(loop, None, obj, e.parts);
      case Switch(init, clauses) =>
        QuietNet(init, obj, e.own);
        if e.arm < |clauses| { QuietList(clauses[e.arm].body, obj, e.parts); }
      case Select(clauses) => QuietList(clauses[e.arm].body, obj, e.parts);
    }
  }

  lemma NoneQuiet(obj: Obj)
    ensures Quiet(None, obj)
  {}

  // In no execution do such headers touch the counter.
  lemma {:induction false} QuietList(list: seq<GStmt>, obj: Obj, parts: seq<Course>)
    requires AreExecs(list, obj, parts) && QuietHeadersIn(list, obj)
    ensures HeadersIn(list, obj, parts) == 0
    decreases list, 0
  {
    hide IsExec, QuietHeaders, HeaderNet;
    if list != [] {
      QuietHeader(list[0], obj, parts[0]);
      QuietList(list[1..], obj, parts[1..]);
    }
  }

  lemma {:induction false} QuietRounds(loop: seq<GStmt>, post: Option<Act>, obj: Obj, rounds: seq<Course>)
    requires AreRounds(loop, post, obj, rounds) && QuietHeadersIn(loop, obj) && Quiet(post, obj)
    ensures HeadersOfRounds(loop, post, obj, rounds) == 0
    decreases loop, 1, |rounds|
  {
    hide AreExecs, QuietHeadersIn, Quiet, OptActs, Net;
    if rounds != [] {
      QuietNet(post, obj, rounds[0].own);
      QuietList(loop, obj, rounds[0].parts);
      QuietRounds(loop, post, obj, rounds[1..]);
    }
  }

  predicate LateAdd(a: Act, obj: Obj) {
    a.AddCall? && a.obj == obj && a.deferred
  }

  predicate NotLate(a: Option<Act>, obj: Obj) {
    a.Some? ==> !LateAdd(a.value, obj)
  }

  // No Add to the group is deferred.
  predicate PromptAdds(s: GStmt, obj: Obj)
    decreases s, 0
  {
    match s
    case Do(a) => !LateAdd(a, obj)
    case Block(list) => PromptAddsIn(list, obj)
    case Labeled(body) => PromptAdds(body, obj)
    case If(init, _, thn, els) => NotLate(init, obj) && PromptAddsIn(thn, obj)
      && (els.Some? ==> PromptAdds(els.value, obj))
    case For(init, _, post, loop) => NotLate(init, obj) && NotLate(post, obj) && PromptAddsIn(loop, obj)
    case Range(loop) => PromptAddsIn(loop, obj)
    case Switch(init, clauses) => NotLate(init, obj) && forall i :: 0 <= i < |clauses| ==>
      PromptAddsIn(clauses[i].body, obj)
    case Select(clauses) => forall i :: 0 <= i < |clauses| ==> PromptAddsIn(clauses[i].body, obj)
  }

  predicate PromptAddsIn(list: seq<GStmt>, obj: Obj)
    decreases list, 0
  {
    forall i :: 0 <= i < |list| ==> PromptAdds(list[i], obj)
  }

  lemma LateParts(e: Course)
    ensures TotalOf(e).lateAdds == e.own.lateAdds + SumOf(e.parts).lateAdds
    ensures |e.parts| == 1 ==> SumOf(e.parts).lateAdds == TotalOf(e.parts[0]).lateAdds
    ensures e.parts == [] ==> SumOf(e.parts).lateAdds == 0
  {
    if |e.parts| == 1 { assert e.parts[1..] == []; }
  }

  lemma NotLateTally(a: Option<Act>, obj: Obj, t: Tally)
    requires NotLate(a, obj) && OptActs(a, obj, t)
    ensures t.lateAdds == 0
  {}

  lemma {:induction false} PromptTotal(s: GStmt, obj: Obj, e: Course)
    requires IsExec(s, obj, e) && PromptAdds(s, obj)
    ensures TotalOf(e).lateAdds == 0
    decreases s, 1
  {
    hide AreExecs, AreRounds, OptActs, NotLate, LateAdd, TotalOf, SumOf, PromptAddsIn, Acts;
    LateParts(e);
    match s {
      case Do(a) => ActPrompt(a, obj, e.own);
      case Block(list) => PromptSum(list, obj, e.parts);
      case Labeled(body) => PromptTotal(body, obj, e.parts[0]);
      case If(init, _, thn, els) =>
        NotLateTally(init, obj, e.own);
        if e.arm == 0 { PromptSum(thn, obj, e.parts); } else if els.Some? { PromptTotal(els.value, obj, e.parts[0]); }
      case For(init, _, post, loop) =>
        NotLateTally(init, obj, e.own);
        PromptRounds(loop, post, obj, e.parts);
      case Range(loop) => assert NotLate(None, obj) by { NoneNotLate(obj); } PromptRounds(loop, None, obj, e.parts);
      case Switch(init, clauses) =>
        NotLateTally(init, obj, e.own);
        if e.arm < |clauses| { PromptSum(clauses[e.arm].body, obj, e.parts); }
      case Select(clauses) => PromptSum(clauses[e.arm].body, obj, e.parts);
    }
  }

  lemma ActPrompt(a: Act, obj: Obj, t: Tally)
    requires Acts(a, obj, t) && !LateAdd(a, obj)
    ensures t.lateAdds == 0
  {}

  lemma NoneNotLate(obj: Obj)
    ensures NotLate(None, obj)
  {}

  // In no execution is anything added at the return.
  lemma {:induction false} PromptSum(list: seq<GStmt>, obj: Obj, parts: seq<Course>)
    requires AreExecs(list, obj, parts) && PromptAddsIn(list, obj)
    ensures SumOf(parts).lateAdds == 0
    decreases list, 0
  {
    hide IsExec, PromptAdds, TotalOf;
    if list != [] {
      PromptTotal(list[0], obj, parts[0]);
      PromptSum(list[1..], obj, parts[1..]);
    }
  }

  lemma {:induction false} PromptRounds(loop: seq<GStmt>, post: Option<Act>, obj: Obj, rounds: seq<Course>)
    requires AreRounds(loop, post, obj, rounds) && PromptAddsIn(loop, obj) && NotLate(post, obj)
    ensures SumOf(rounds).lateAdds == 0
    decreases loop, 1, |rounds|
  {
    hide AreExecs, PromptAddsIn, NotLate, OptActs;
    if rounds != [] {
      NotLateTally(post, obj, rounds[0].own);
      LateParts(rounds[0]);
      PromptSum(loop, obj, rounds[0].parts);
      PromptRounds(loop, post, obj, rounds[1..]);
    }
  }

  // With quiet headers the count needs no correction.
  lemma CountIsRight(list: seq<GStmt>, obj: Obj, index: Index, parts: seq<Course>, workerDones: nat)
    requires Covering(index, obj) && AreExecs(list, obj, parts) && workerDones <= SumOf(parts).spawns
      && QuietHeadersIn(list, obj)
    ensures var bal, t := WalkStmts(list, obj, index), SumOf(parts);
      var counter := t.adds + t.lateAdds - t.dones - t.lateDones - workerDones;
      var count := bal.addTotal - bal.doneTotal;
      bal.fullyKnown ==> counter >= count && (counter == count <==> workerDones == t.spawns)
  {
    hide AreExecs, WalkStmts, SumOf, HeadersIn, QuietHeadersIn;
    BalanceSound(list, obj, index, parts, workerDones);
    QuietList(list, obj, parts);
  }

  /****** Workers the walker has seen are started ******/

  lemma {:induction false} SpawnedRuns(s: GStmt, obj: Obj, bal: Balance, e: Course)
    requires IsExec(s, obj, e)
    ensures var r := WalkStmt(s, obj, Straight(bal), NoIndex).bal;
      bal.spawned <= r.spawned && r.spawned - bal.spawned <= TotalOf(e).spawns
    decreases s, 1
  {
    match s {
      case Do(a) =>
      case Block(list) => SpawnedAllRuns(list, obj, bal, e.parts);
      case Labeled(body) => SpawnedRuns(body, obj, bal, e.parts[0]); assert SumOf(e.parts) == TotalOf(e.parts[0]);
      case If(_, cond, thn, els) =>
        if cond == Cond.Known(true) { SpawnedAllRuns(thn, obj, bal, e.parts); }
        else if cond == Cond.Known(false) && els.Some? {
          SpawnedRuns(els.value, obj, bal, e.parts[0]);
          assert SumOf(e.parts) == TotalOf(e.parts[0]);
        }
      case For(_, _, _, loop) => WalkLoopMonotone(loop, obj, Straight(bal)); LoopSpawned(loop, obj, bal);
      case Range(loop) => WalkLoopMonotone(loop, obj, Straight(bal)); LoopSpawned(loop, obj, bal);
      case _ =>
    }
  }

  lemma LoopSpawned(loop: seq<GStmt>, obj: Obj, bal: Balance)
    ensures WalkLoop(loop, obj, Straight(bal), NoIndex).bal.spawned == bal.spawned
  {
    hide WalkAll;
    WalkAllMonotone(loop, obj, InLoop(bal, Scope(0, 0, false)));
  }

  lemma SpawnedAllRuns(list: seq<GStmt>, obj: Obj, bal: Balance, parts: seq<Course>)
    requires AreExecs(list, obj, parts)
    ensures var r := WalkAll(list, obj, Straight(bal), NoIndex).bal;
      bal.spawned <= r.spawned && r.spawned - bal.spawned <= SumOf(parts).spawns
    decreases list, 0
  {
    if list != [] {
      SpawnedRuns(list[0], obj, bal, parts[0]);
      SpawnedAllRuns(list[1..], obj, WalkStmt(list[0], obj, Straight(bal), NoIndex).bal, parts[1..]);
    }
  }
}
