/**
 Rounds of work on one WaitGroup: a body cut at its top-level Waits.
 */
module GroupRounds {
  import opened Wrappers
  import opened GroupBalance
  import opened GroupCounts
  import GroupWalker

  /****** Top-level statements ******/

  // Bare blocks and labels are only scope: their statements run in order, once.
  function FlattenStmt(s: GStmt): seq<GStmt>
    decreases s, 0
  {
    match s
    case Block(list) => Flatten(list)
    case Labeled(body) => FlattenStmt(body)
    case _ => [s]
  }

  function Flatten(list: seq<GStmt>): seq<GStmt>
    decreases list, 0
  {
    if list == [] then [] else FlattenStmt(list[0]) + Flatten(list[1..])
  }

  lemma {:induction false} WalkAllAppend(a: seq<GStmt>, b: seq<GStmt>, obj: Obj, c: Count)
    ensures WalkAll(a + b, obj, c, NoIndex) == WalkAll(b, obj, WalkAll(a, obj, c, NoIndex), NoIndex)
    decreases a
  {
    if a == [] {
      assert a + b == b;
    } else {
      assert (a + b)[1..] == a[1..] + b;
      WalkAllAppend(a[1..], b, obj, WalkStmt(a[0], obj, c, NoIndex));
    }
  }

  lemma {:induction false} FlattenStmtWalks(s: GStmt, obj: Obj, c: Count)
    ensures WalkAll(FlattenStmt(s), obj, c, NoIndex) == WalkStmt(s, obj, c, NoIndex)
    decreases s, 0
  {
    match s {
      case Block(list) => FlattenWalks(list, obj, c);
      case Labeled(body) => FlattenStmtWalks(body, obj, c);
      case _ =>
        assert [s][1..] == []
          && WalkAll([], obj, WalkStmt(s, obj, c, NoIndex), NoIndex) == WalkStmt(s, obj, c, NoIndex);
    }
  }

  // Flattening does not change the count.
  lemma FlattenWalks(list: seq<GStmt>, obj: Obj, c: Count)
    ensures WalkAll(Flatten(list), obj, c, NoIndex) == WalkAll(list, obj, c, NoIndex)
    decreases list, 0
  {
    if list != [] {
      FlattenStmtWalks(list[0], obj, c);
      WalkAllAppend(FlattenStmt(list[0]), Flatten(list[1..]), obj, c);
      FlattenWalks(list[1..], obj, WalkStmt(list[0], obj, c, NoIndex));
    }
  }

  // What is left is neither a block nor a label, and all simple statements are still there, in
  // the same order.
  lemma {:induction false} FlattenStmtFlat(s: GStmt)
    ensures forall r :: r in FlattenStmt(s) ==> !r.Block? && !r.Labeled?
    ensures LineOf(FlattenStmt(s)) == Line(s)
    decreases s, 0
  {
    match s {
      case Block(list) => FlattenFlat(list);
      case Labeled(body) => FlattenStmtFlat(body);
      case _ => assert [s][1..] == [];
    }
  }

  lemma {:induction false} FlattenFlat(list: seq<GStmt>)
    ensures forall r :: r in Flatten(list) ==> !r.Block? && !r.Labeled?
    ensures LineOf(Flatten(list)) == LineOf(list)
    decreases list, 0
  {
    hide Line;
    if list != [] {
      FlattenStmtFlat(list[0]);
      FlattenFlat(list[1..]);
      LineAppend(FlattenStmt(list[0]), Flatten(list[1..]));
    }
  }

  lemma {:induction false} LineAppend(a: seq<GStmt>, b: seq<GStmt>)
    ensures LineOf(a + b) == LineOf(a) + LineOf(b)
    decreases a
  {
    hide Line;
    if a == [] {
      assert a + b == b;
    } else {
      assert (a + b)[1..] == a[1..] + b;
      LineAppend(a[1..], b);
      assert Line(a[0]) + (LineOf(a[1..]) + LineOf(b)) == (Line(a[0]) + LineOf(a[1..])) + LineOf(b);
    }
  }

  /****** Flattening keeps executions ******/

  function FlatCourse(s: GStmt, obj: Obj, e: Course): (r: seq<Course>)
    requires IsExec(s, obj, e)
    ensures AreExecs(FlattenStmt(s), obj, r)
    decreases s, 0
  {
    match s
    case Block(list) => FlatCourses(list, obj, e.parts)
    case Labeled(body) => FlatCourse(body, obj, e.parts[0])
    case _ => assert [s][1..] == [] && [e][1..] == []; [e]
  }

  function FlatCourses(list: seq<GStmt>, obj: Obj, parts: seq<Course>): (r: seq<Course>)
    requires AreExecs(list, obj, parts)
    ensures AreExecs(Flatten(list), obj, r)
    decreases list, 0
  {
    if list == [] then []
    else
      var a, b := FlatCourse(list[0], obj, parts[0]), FlatCourses(list[1..], obj, parts[1..]);
      ExecsAppend(FlattenStmt(list[0]), a, Flatten(list[1..]), b, obj);
      a + b
  }

  lemma {:induction false} ExecsAppend(a: seq<GStmt>, ea: seq<Course>, b: seq<GStmt>, eb: seq<Course>, obj: Obj)
    requires AreExecs(a, obj, ea) && AreExecs(b, obj, eb)
    ensures AreExecs(a + b, obj, ea + eb)
    decreases a
  {
    if a == [] {
      assert a + b == b && ea + eb == eb;
    } else {
      assert (a + b)[1..] == a[1..] + b && (ea + eb)[1..] == ea[1..] + eb;
      ExecsAppend(a[1..], ea[1..], b, eb, obj);
    }
  }

  lemma PlusAssoc(t: Tally, u: Tally, v: Tally)
    ensures Plus(Plus(t, u), v) == Plus(t, Plus(u, v)) && Plus(IDLE, t) == t && Plus(t, IDLE) == t
  {}

  lemma {:induction false} SumAppend(a: seq<Course>, b: seq<Course>)
    ensures SumOf(a + b) == Plus(SumOf(a), SumOf(b))
    decreases a
  {
    hide TotalOf;
    if a == [] {
      assert a + b == b;
      PlusAssoc(SumOf(b), IDLE, IDLE);
    } else {
      assert (a + b)[1..] == a[1..] + b;
      SumAppend(a[1..], b);
      PlusAssoc(TotalOf(a[0]), SumOf(a[1..]), SumOf(b));
    }
  }

  lemma SumOne(e: Course)
    ensures SumOf([e]) == TotalOf(e)
  {
    assert [e][1..] == [];
    PlusAssoc(TotalOf(e), IDLE, IDLE);
  }

  lemma {:induction false} FlatTotal(s: GStmt, obj: Obj, e: Course)
    requires IsExec(s, obj, e)
    ensures SumOf(FlatCourse(s, obj, e)) == TotalOf(e)
    decreases s, 0
  {
    hide Plus;
    PlusAssoc(SumOf(e.parts), IDLE, IDLE);
    match s {
      case Block(list) => FlatSum(list, obj, e.parts);
      case Labeled(body) =>
        FlatTotal(body, obj, e.parts[0]);
        assert e.parts == [e.parts[0]];
        SumOne(e.parts[0]);
      case _ => SumOne(e);
    }
  }

  // A body's execution, cut into its top-level statements, does the same.
  lemma FlatSum(list: seq<GStmt>, obj: Obj, parts: seq<Course>)
    requires AreExecs(list, obj, parts)
    ensures SumOf(FlatCourses(list, obj, parts)) == SumOf(parts)
    decreases list, 0
  {
    hide Plus;
    if list != [] {
      FlatTotal(list[0], obj, parts[0]);
      FlatSum(list[1..], obj, parts[1..]);
      SumAppend(FlatCourse(list[0], obj, parts[0]), FlatCourses(list[1..], obj, parts[1..]));
    }
  }

  /****** Balances of segments add up ******/

  function Sum(a: Balance, b: Balance): Balance {
    Balance(a.addTotal + b.addTotal, a.doneTotal + b.doneTotal, a.spawned + b.spawned, a.fullyKnown && b.fullyKnown)
  }

  function Shift(base: Balance, c: Count): Count {
    WithBalance(c, Sum(base, c.bal))
  }

  // A balance already there is simply added to.
  lemma {:induction false} WalkShifts(s: GStmt, obj: Obj, base: Balance, c: Count)
    ensures WalkStmt(s, obj, Shift(base, c), NoIndex) == Shift(base, WalkStmt(s, obj, c, NoIndex))
    decreases s, 1
  {
    match s {
      case Do(a) =>
      case Block(list) => WalkAllShifts(list, obj, base, c);
      case Labeled(body) => WalkShifts(body, obj, base, c);
      case If(_, _, thn, els) =>
        WalkAllShifts(thn, obj, base, c);
        if els.Some? { WalkShifts(els.value, obj, base, c); }
      case For(_, _, _, loop) => WalkLoopShifts(loop, obj, base, c);
      case Range(loop) => WalkLoopShifts(loop, obj, base, c);
      case _ =>
    }
  }

  lemma WalkLoopShifts(loop: seq<GStmt>, obj: Obj, base: Balance, c: Count)
    ensures WalkLoop(loop, obj, Shift(base, c), NoIndex) == Shift(base, WalkLoop(loop, obj, c, NoIndex))
    decreases loop, 1
  {
    hide WalkAll;
    WalkAllShifts(loop, obj, base, InLoop(c.bal, Scope(0, 0, false)));
  }

  lemma WalkAllShifts(list: seq<GStmt>, obj: Obj, base: Balance, c: Count)
    ensures WalkAll(list, obj, Shift(base, c), NoIndex) == Shift(base, WalkAll(list, obj, c, NoIndex))
    decreases list, 0
  {
    if list != [] {
      WalkShifts(list[0], obj, base, c);
      WalkAllShifts(list[1..], obj, base, WalkStmt(list[0], obj, c, NoIndex));
    }
  }

  lemma StmtsIs(list: seq<GStmt>, obj: Obj, index: Index)
    requires Covering(index, obj)
    ensures Straight(WalkStmts(list, obj, index)) == WalkAll(list, obj, Straight(NOTHING), NoIndex)
  {
    IndexRefinesStmts(list, obj, NOTHING, index);
    UnskippedIsAll(list, obj, NOTHING);
  }

  lemma SegmentsAdd(a: seq<GStmt>, b: seq<GStmt>, obj: Obj, index: Index)
    requires Covering(index, obj)
    ensures WalkStmts(a + b, obj, index) == Sum(WalkStmts(a, obj, index), WalkStmts(b, obj, index))
  {
    hide WalkAll, WalkStmts;
    StmtsIs(a, obj, index);
    StmtsIs(b, obj, index);
    StmtsIs(a + b, obj, index);
    WalkAllAppend(a, b, obj, Straight(NOTHING));
    var bal := WalkStmts(a, obj, index);
    assert Straight(bal) == Shift(bal, Straight(NOTHING));
    WalkAllShifts(b, obj, bal, Straight(NOTHING));
  }

  lemma WaitCountsNothing(obj: Obj, index: Index)
    requires Covering(index, obj)
    ensures WalkStmts([Do(WaitCall(obj))], obj, index) == NOTHING
  {
    StmtsIs([Do(WaitCall(obj))], obj, index);
    assert [Do(WaitCall(obj))][1..] == [];
  }

  /****** The pass over the rounds ******/

  predicate AreWaits(flat: seq<GStmt>, obj: Obj, waits: seq<nat>) {
    && (forall k :: 0 <= k < |waits| ==> waits[k] < |flat| && flat[waits[k]] == Do(WaitCall(obj)))
    && (forall j, k :: 0 <= j < k < |waits| ==> waits[j] < waits[k])
  }

  // Where the bare Waits stand.
  method WaitPositions(flat: seq<GStmt>, obj: Obj) returns (waits: seq<nat>)
    ensures AreWaits(flat, obj, waits)
    ensures forall p: nat :: p < |flat| && flat[p] == Do(WaitCall(obj)) ==> p in waits
  {
    waits := [];
    for pos := 0 to |flat|
      invariant AreWaits(flat, obj, waits) && forall p :: p in waits ==> p < pos
      invariant forall p: nat :: p < pos && flat[p] == Do(WaitCall(obj)) ==> p in waits
    {
      if flat[pos] == Do(WaitCall(obj)) {
        ghost var before := waits;
        assert forall k :: 0 <= k < |before| ==> before[k] in before;
        waits := waits + [pos];
        assert pos in waits && forall p :: p in before ==> p in waits;
      }
    }
  }

  function Start(waits: seq<nat>, k: nat): nat
    requires k <= |waits|
  {
    if k == 0 then 0 else waits[k - 1] + 1
  }

  lemma StartsInRange(flat: seq<GStmt>, obj: Obj, waits: seq<nat>, k: nat)
    requires AreWaits(flat, obj, waits) && k <= |waits|
    ensures Start(waits, k) <= (if k < |waits| then waits[k] else |flat|)
  {}

  // The whole story up to position p, in the fields the pass keeps.
  ghost predicate Story(running: Balance, flat: seq<GStmt>, p: nat, obj: Obj, index: Index)
    requires p <= |flat|
  {
    var bal := WalkStmts(flat[..p], obj, index);
    running.addTotal == bal.addTotal && running.doneTotal == bal.doneTotal && running.fullyKnown == bal.fullyKnown
  }

  // Up to p, constant Adds outnumber Dones and started workers for certain.
  ghost predicate Overdue(flat: seq<GStmt>, p: nat, obj: Obj)
    requires p <= |flat|
  {
    var acts := LineOf(flat[..p]);
    AllCertain(flat[..p], obj, false) && Added(acts, obj) > Dones(acts, obj) + Started(acts, obj)
  }

  lemma MismatchIsOverdue(flat: seq<GStmt>, p: nat, obj: Obj, index: Index)
    requires Covering(index, obj) && p <= |flat|
    ensures Mismatch(flat, p, obj, index) <==> Overdue(flat, p, obj)
  {
    hide WalkStmts, AllCertain;
    WalkCounts(flat[..p], obj, index);
  }

  // computeGroupRoundBalances for one group.  A mismatch is reported exactly when, at some
  // top-level Wait, what stands before it is overdue; a further round, exactly when outside
  // loops and open conditionals a worker is started after the last Wait.
  method RoundBalances(flat: seq<GStmt>, waits: seq<nat>, obj: Obj, index: Index)
    returns (mismatch: bool, unjoined: bool)
    requires AreWaits(flat, obj, waits) && Covering(index, obj)
    ensures mismatch <==> exists k :: 0 <= k < |waits| && Mismatch(flat, waits[k], obj, index)
    ensures mismatch <==> exists k :: 0 <= k < |waits| && Overdue(flat, waits[k], obj)
    ensures unjoined <==> waits != [] && exists a ::
      a in LineOf(flat[waits[|waits| - 1] + 1..]) && StartsWorker(a, obj)
    ensures unjoined ==> WalkStmts(flat[waits[|waits| - 1] + 1..], obj, index).spawned > 0
  {
    hide WalkStmts, AllCertain, LineOf, Added, Dones, Started, StartsWorker;
    forall k | 0 <= k < |waits| ensures Mismatch(flat, waits[k], obj, index) <==> Overdue(flat, waits[k], obj) {
      MismatchIsOverdue(flat, waits[k], obj, index);
    }
    mismatch, unjoined := false, false;
    if |waits| == 0 { return; }
    var running := NOTHING;
    var start := 0;
    assert Story(running, flat, 0, obj, index) by { Nothing(flat, obj, index); }
    for i := 0 to |waits|
      invariant start == Start(waits, i) <= |flat| && Story(running, flat, start, obj, index)
      invariant mismatch <==> exists k :: 0 <= k < i && Mismatch(flat, waits[k], obj, index)
    {
      StartsInRange(flat, obj, waits, i);
      var p := waits[i];
      var bal := GroupWalker.WalkGroupBalanceStmts(flat[start..p], obj, index);
      running := Balance(running.addTotal + bal.addTotal, running.doneTotal + bal.doneTotal, running.spawned,
        running.fullyKnown && bal.fullyKnown);
      assert flat[..p] == flat[..start] + flat[start..p];
      SegmentsAdd(flat[..start], flat[start..p], obj, index);
      assert Story(running, flat, p, obj, index);
      if running.fullyKnown && running.addTotal > running.doneTotal && !mismatch { mismatch := true; }
      assert flat[..p + 1] == flat[..p] + [flat[p]];
      SegmentsAdd(flat[..p], [flat[p]], obj, index);
      WaitCountsNothing(obj, index);
      start := p + 1;
    }
    var trailing := GroupWalker.WalkGroupBalanceStmts(flat[start..], obj, index);
    WalkCounts(flat[start..], obj, index);
    StartedIs(LineOf(flat[start..]), obj);
    unjoined := trailing.spawned > 0;
  }

  ghost predicate Mismatch(flat: seq<GStmt>, p: nat, obj: Obj, index: Index)
    requires p <= |flat|
  {
    var bal := WalkStmts(flat[..p], obj, index);
    bal.fullyKnown && bal.addTotal > bal.doneTotal
  }

  lemma Nothing(flat: seq<GStmt>, obj: Obj, index: Index)
    ensures WalkStmts(flat[..0], obj, index) == NOTHING
  {}

  /****** What the pass says about executions ******/

  // The balances of the first n segments, Waits left out.
  function RoundsSum(flat: seq<GStmt>, waits: seq<nat>, n: nat, obj: Obj, index: Index): Balance
    requires AreWaits(flat, obj, waits) && n <= |waits|
  {
    if n == 0 then NOTHING
    else
      StartsInRange(flat, obj, waits, n - 1);
      Sum(RoundsSum(flat, waits, n - 1, obj, index), WalkStmts(flat[Start(waits, n - 1)..waits[n - 1]], obj, index))
  }

  lemma {:induction false} RoundsUpTo(flat: seq<GStmt>, waits: seq<nat>, n: nat, obj: Obj, index: Index)
    requires AreWaits(flat, obj, waits) && n <= |waits| && Covering(index, obj)
    ensures Start(waits, n) <= |flat|
    ensures RoundsSum(flat, waits, n, obj, index) == WalkStmts(flat[..Start(waits, n)], obj, index)
    decreases n
  {
    hide WalkStmts;
    StartsInRange(flat, obj, waits, n);
    if n == 0 {
      Nothing(flat, obj, index);
    } else {
      StartsInRange(flat, obj, waits, n - 1);
      RoundsUpTo(flat, waits, n - 1, obj, index);
      var start, p := Start(waits, n - 1), waits[n - 1];
      assert flat[..p] == flat[..start] + flat[start..p];
      SegmentsAdd(flat[..start], flat[start..p], obj, index);
      assert flat[..p + 1] == flat[..p] + [flat[p]];
      SegmentsAdd(flat[..p], [flat[p]], obj, index);
      WaitCountsNothing(obj, index);
    }
  }

  // The segments between the Waits and the trailing one add up to the whole body, blocks and
  // labels left in place.
  lemma RoundsSumToBody(body: seq<GStmt>, waits: seq<nat>, obj: Obj, index: Index)
    requires AreWaits(Flatten(body), obj, waits) && Covering(index, obj)
    ensures Start(waits, |waits|) <= |Flatten(body)|
    ensures WalkStmts(body, obj, index) ==
      Sum(RoundsSum(Flatten(body), waits, |waits|, obj, index),
        WalkStmts(Flatten(body)[Start(waits, |waits|)..], obj, index))
  {
    hide WalkStmts, WalkAll, Flatten, RoundsSum;
    var flat := Flatten(body);
    RoundsUpTo(flat, waits, |waits|, obj, index);
    var p := Start(waits, |waits|);
    assert flat == flat[..p] + flat[p..];
    SegmentsAdd(flat[..p], flat[p..], obj, index);
    StmtsIs(flat, obj, index);
    StmtsIs(body, obj, index);
    FlattenWalks(body, obj, Straight(NOTHING));
  }

  // The counter before deferred calls run, after workerDones calls to Done by workers.
  function CounterAt(t: Tally, workerDones: nat): int {
    t.adds - t.dones - workerDones
  }

  // At a Wait, after any execution of what stands before it and with workerDones calls to
  // Done by the workers started so far, the counter is what was added and taken on the spot;
  // deferred calls have not run.  If every worker has finished, it equals the count, plus
  // what the headers did, minus deferred Adds, plus deferred Dones.
  lemma CounterAtWait(flat: seq<GStmt>, p: nat, obj: Obj, index: Index, parts: seq<Course>, workerDones: nat)
    requires Covering(index, obj) && p <= |flat| && AreExecs(flat[..p], obj, parts)
      && workerDones <= SumOf(parts).spawns
    ensures var bal, t := WalkStmts(flat[..p], obj, index), SumOf(parts);
      var counter := CounterAt(t, workerDones);
      var count := bal.addTotal - bal.doneTotal + HeadersIn(flat[..p], obj, parts) - t.lateAdds + t.lateDones;
      bal.fullyKnown ==> counter >= count && (counter == count <==> workerDones == t.spawns)
  {
    BalanceSound(flat[..p], obj, index, parts, workerDones);
  }

  // A reported Wait blocks, whatever its workers have done by then, exactly in the executions
  // in which count, headers and deferred Dones outweigh deferred Adds.
  lemma MismatchBlocks(flat: seq<GStmt>, p: nat, obj: Obj, index: Index, parts: seq<Course>)
    requires Covering(index, obj) && p <= |flat| && AreExecs(flat[..p], obj, parts) && Mismatch(flat, p, obj, index)
    ensures var bal, t := WalkStmts(flat[..p], obj, index), SumOf(parts);
      (forall workerDones: nat :: workerDones <= t.spawns ==> CounterAt(t, workerDones) > 0) <==>
      bal.addTotal - bal.doneTotal + HeadersIn(flat[..p], obj, parts) + t.lateDones > t.lateAdds
  {
    hide WalkStmts, SumOf, HeadersIn, AreExecs;
    CounterAtWait(flat, p, obj, index, parts, SumOf(parts).spawns);
    assert CounterAt(SumOf(parts), SumOf(parts).spawns) == CounterAt(SumOf(parts), 0) - SumOf(parts).spawns;
  }

  // On a body in which, up to the Wait, no header acts on the group and no Add is deferred,
  // a reported Wait blocks in every execution.
  lemma ReportedWaitBlocks(flat: seq<GStmt>, p: nat, obj: Obj, index: Index, parts: seq<Course>, workerDones: nat)
    requires Covering(index, obj) && p <= |flat| && AreExecs(flat[..p], obj, parts)
      && workerDones <= SumOf(parts).spawns
    requires Mismatch(flat, p, obj, index) && QuietHeadersIn(flat[..p], obj) && PromptAddsIn(flat[..p], obj)
    ensures CounterAt(SumOf(parts), workerDones) > 0
  {
    hide WalkStmts, SumOf, HeadersIn, AreExecs, QuietHeadersIn, PromptAddsIn;
    MismatchBlocks(flat, p, obj, index, parts);
    QuietList(flat[..p], obj, parts);
    PromptSum(flat[..p], obj, parts);
  }

  // defer wg.Add(1); wg.Wait(): reported, but nothing has been added when Wait is reached.
  const DEFERRED_ADD: seq<GStmt> := [Do(AddCall(0, Literal(1), true)), Do(WaitCall(0))]

  lemma DeferredAddMisreported(parts: seq<Course>)
    requires AreExecs(DEFERRED_ADD[..1], 0, parts)
    ensures Mismatch(DEFERRED_ADD, 1, 0, NoIndex) && CounterAt(SumOf(parts), 0) == 0
  {
    hide WalkStmts, IsExec, TotalOf, SumOf;
    DeferredWalk();
    assert DEFERRED_ADD[..1] == [DEFERRED_ADD[0]];
    OnlyOne(DEFERRED_ADD[0], 0, parts);
    DeferredExec(parts[0].own, parts[0].parts, parts[0].arm);
    SumOne(parts[0]);
  }

  lemma OnlyOne(s: GStmt, obj: Obj, parts: seq<Course>)
    requires AreExecs([s], obj, parts)
    ensures |parts| == 1 && parts == [parts[0]] && IsExec(s, obj, parts[0])
  {
    hide IsExec;
  }

  lemma DeferredWalk()
    ensures Mismatch(DEFERRED_ADD, 1, 0, NoIndex)
  {
    var before := DEFERRED_ADD[..1];
    assert before == [DEFERRED_ADD[0]] && before[1..] == [];
    StmtsIs(before, 0, NoIndex);
    var one := Straight(NOTHING.(addTotal := 1));
    assert WalkAll(before[1..], 0, one, NoIndex) == one;
  }

  lemma DeferredExec(own: Tally, parts: seq<Course>, arm: nat)
    requires IsExec(DEFERRED_ADD[0], 0, Course(own, arm, parts))
    ensures TotalOf(Course(own, arm, parts)).adds == 0 && TotalOf(Course(own, arm, parts)).dones == 0
  {
    assert own == IDLE.(lateAdds := 1) && parts == [];
  }

  // A reported further round starts a worker in every execution of what follows the Wait.
  lemma UnjoinedStarts(rest: seq<GStmt>, obj: Obj, index: Index, parts: seq<Course>)
    requires Covering(index, obj) && AreExecs(rest, obj, parts)
    ensures SumOf(parts).spawns >= WalkStmts(rest, obj, index).spawned
  {
    hide WalkAll, WalkStmts, AreExecs, SumOf;
    StmtsIs(rest, obj, index);
    SpawnedAllRuns(rest, obj, NOTHING, parts);
  }
}
