/**
 What trusting calls changes for executions: nothing but the verdict on loops that make such
 calls.  TrustedGraph says the same of the graphs.
 */
module Trust {
  import opened Wrappers
  import opened Graph
  import opened Syntax
  import opened Semantics
  import opened Building
  import opened Correctness
  import opened Termination
  import Compiler
  import Merging
  import TrustedGraph
  import Verdict

  // The machine is about to make a trusted call.
  predicate AtTrusted(trust: Instr -> bool, c: Kont) {
    var f := Focus(c);
    f.Run? && f.s.Exec? && !f.s.simple.panics && trust(f.s.simple.id)
  }

  // Some structural execution from c comes to a trusted call.
  ghost predicate CanDelegate(trust: Instr -> bool, body: seq<Stmt>, c: Kont) {
    exists events, d :: Executes(STRUCTURAL, body, c, events, d) && AtTrusted(trust, d)
  }

  // A point structural execution reaches, can run on from without end, but from which it
  // neither finishes nor comes to a trusted call.
  ghost predicate Stranded(trust: Instr -> bool, body: seq<Stmt>, events: seq<Event>, c: Kont) {
    && Executes(STRUCTURAL, body, Start(body), events, c)
    && CanGoOn(STRUCTURAL, body, c) && !CanEnd(STRUCTURAL, body, c) && !CanDelegate(trust, body, c)
  }

  ghost predicate Reaches(trust: Instr -> bool, body: seq<Stmt>, c: Kont, d: Kont) {
    exists events :: Executes(trust, body, c, events, d)
  }

  /****** Moves with and without trust ******/

  lemma SameMoves(trust: Instr -> bool, body: seq<Stmt>, c: Kont)
    requires !AtTrusted(trust, c)
    ensures Moves(trust, body, Focus(c)) == Moves(STRUCTURAL, body, Focus(c))
  {
    hide Focus, CaseMoves, BreakTo, ContinueTo, FallTo, FindIn;
  }

  lemma TrustedMoves(trust: Instr -> bool, body: seq<Stmt>, c: Kont)
    requires AtTrusted(trust, c)
    ensures var x, k := Focus(c).s.simple, Focus(c).k;
      && Moves(trust, body, Focus(c)) == [Move(Emit(x.id), Trusted(k))]
      && Moves(STRUCTURAL, body, Focus(c)) == [Move(Emit(x.id), k)]
  {
    hide Focus;
  }

  lemma PausedMoves(trust: Instr -> bool, body: seq<Stmt>, k: Kont)
    ensures Moves(trust, body, Focus(Trusted(k))) == [Move(Jump(Normal), k), Move(Jump(TrustedStop), Done)]
  {}

  lemma {:induction false} DoneStays(trust: Instr -> bool, body: seq<Stmt>, events: seq<Event>, d: Kont)
    requires Executes(trust, body, Done, events, d)
    ensures d == Done
  {
    DoneMoves(trust, body);
  }

  lemma DoneMoves(trust: Instr -> bool, body: seq<Stmt>)
    ensures Moves(trust, body, Focus(Done)) == []
  {}

  lemma Step(trust: Instr -> bool, body: seq<Stmt>, c: Kont, m: Move, events: seq<Event>, d: Kont)
    requires m in Moves(trust, body, Focus(c)) && Executes(trust, body, m.next, events, d)
    ensures Executes(trust, body, c, [m.event] + events, d)
  {
    hide Moves, Focus;
    assert ([m.event] + events)[1..] == events;
  }

  lemma {:induction false} Join(trust: Instr -> bool, body: seq<Stmt>, c: Kont, p: seq<Event>, d: Kont, q: seq<Event>,
      e: Kont)
    requires Executes(trust, body, c, p, d) && Executes(trust, body, d, q, e)
    ensures Executes(trust, body, c, p + q, e)
    decreases p
  {
    hide Moves, Focus;
    if p == [] {
      assert p + q == q;
    } else {
      var m :| m in Moves(trust, body, Focus(c)) && m.event == p[0] && Executes(trust, body, m.next, p[1..], d);
      Join(trust, body, m.next, p[1..], d, q, e);
      assert [m.event] + (p[1..] + q) == p + q;
      Step(trust, body, c, m, p[1..] + q, e);
    }
  }

  /****** Nothing becomes unreachable ******/

  // Every structural execution is one under trust in which each trusted call returns.
  lemma {:induction false} StructuralIsTrusted(trust: Instr -> bool, body: seq<Stmt>, c: Kont, events: seq<Event>,
      d: Kont) returns (shown: seq<Event>)
    requires Executes(STRUCTURAL, body, c, events, d)
    ensures Executes(trust, body, c, shown, d)
    decreases events
  {
    hide Moves, Focus, AtTrusted;
    if events == [] {
      shown := [];
    } else {
      var m :| m in Moves(STRUCTURAL, body, Focus(c)) && m.event == events[0]
        && Executes(STRUCTURAL, body, m.next, events[1..], d);
      var rest := StructuralIsTrusted(trust, body, m.next, events[1..], d);
      shown := TakeStep(trust, body, c, m, rest, d);
    }
  }

  // One structural step, taken under trust.
  lemma TakeStep(trust: Instr -> bool, body: seq<Stmt>, c: Kont, m: Move, rest: seq<Event>, d: Kont)
    returns (shown: seq<Event>)
    requires m in Moves(STRUCTURAL, body, Focus(c)) && Executes(trust, body, m.next, rest, d)
    ensures Executes(trust, body, c, shown, d)
  {
    hide Moves, Focus, Executes;
    if AtTrusted(trust, c) {
      TrustedMoves(trust, body, c);
      PausedMoves(trust, body, m.next);
      Step(trust, body, Trusted(m.next), Move(Jump(Normal), m.next), rest, d);
      Step(trust, body, c, Move(m.event, Trusted(m.next)), [Jump(Normal)] + rest, d);
      shown := [m.event] + ([Jump(Normal)] + rest);
    } else {
      SameMoves(trust, body, c);
      Step(trust, body, c, m, rest, d);
      shown := [m.event] + rest;
    }
  }

  // c under trust is s structurally, or has just come out of a trusted call.
  predicate Follows(c: Kont, s: Kont) {
    c == s || c == Trusted(s)
  }

  // An execution under trust that is not over shows what a structural one does.
  lemma {:induction false} TrustedIsStructural(trust: Instr -> bool, body: seq<Stmt>, c: Kont, s: Kont,
      events: seq<Event>, d: Kont) returns (t: Kont)
    requires Follows(c, s) && Executes(trust, body, c, events, d) && d != Done
    ensures Follows(d, t) && Reaches(STRUCTURAL, body, s, t)
    decreases events
  {
    hide Moves, Focus;
    if events == [] {
      t := s;
      assert Executes(STRUCTURAL, body, s, [], t);
    } else {
      var m :| m in Moves(trust, body, Focus(c)) && m.event == events[0]
        && Executes(trust, body, m.next, events[1..], d);
      if c != s {
        PausedMoves(trust, body, s);
        if m.next == Done { DoneStays(trust, body, events[1..], d); }
        t := TrustedIsStructural(trust, body, m.next, s, events[1..], d);
      } else {
        var n := m;
        if AtTrusted(trust, c) {
          TrustedMoves(trust, body, c);
          n := Move(m.event, m.next.k);
        } else {
          SameMoves(trust, body, c);
        }
        t := TrustedIsStructural(trust, body, m.next, n.next, events[1..], d);
        var rest :| Executes(STRUCTURAL, body, n.next, rest, t);
        Step(STRUCTURAL, body, s, n, rest, t);
      }
    }
  }

  // Trusting calls makes no point of the program unreachable and no new one reachable.
  lemma TrustKeepsReach(trust: Instr -> bool, body: seq<Stmt>, c: Kont)
    requires c != Done && !c.Trusted?
    ensures Reaches(trust, body, Start(body), c) <==> Reaches(STRUCTURAL, body, Start(body), c)
  {
    hide Executes;
    if Reaches(trust, body, Start(body), c) {
      var events :| Executes(trust, body, Start(body), events, c);
      var t := TrustedIsStructural(trust, body, Start(body), Start(body), events, c);
    }
    if Reaches(STRUCTURAL, body, Start(body), c) {
      var events :| Executes(STRUCTURAL, body, Start(body), events, c);
      var shown := StructuralIsTrusted(trust, body, Start(body), events, c);
    }
  }

  /****** Without a trusted call ahead, trust changes nothing ******/

  lemma StillNone(trust: Instr -> bool, body: seq<Stmt>, c: Kont, m: Move)
    requires !CanDelegate(trust, body, c) && m in Moves(STRUCTURAL, body, Focus(c))
    ensures !CanDelegate(trust, body, m.next)
  {
    hide Moves, Focus, AtTrusted;
    if CanDelegate(trust, body, m.next) {
      var events, d :| Executes(STRUCTURAL, body, m.next, events, d) && AtTrusted(trust, d);
      Step(STRUCTURAL, body, c, m, events, d);
    }
  }

  lemma {:induction false} Coincide(trust: Instr -> bool, body: seq<Stmt>, c: Kont, events: seq<Event>, d: Kont)
    requires !CanDelegate(trust, body, c)
    ensures Executes(trust, body, c, events, d) <==> Executes(STRUCTURAL, body, c, events, d)
    decreases events
  {
    hide Moves, Focus, AtTrusted;
    if events != [] {
      assert Executes(STRUCTURAL, body, c, [], c);
      SameMoves(trust, body, c);
      forall m | m in Moves(STRUCTURAL, body, Focus(c))
        ensures Executes(trust, body, m.next, events[1..], d) <==> Executes(STRUCTURAL, body, m.next, events[1..], d)
      {
        StillNone(trust, body, c, m);
        Coincide(trust, body, m.next, events[1..], d);
      }
    }
  }

  lemma CoincideFrom(trust: Instr -> bool, body: seq<Stmt>, c: Kont)
    requires !CanDelegate(trust, body, c)
    ensures CanGoOn(trust, body, c) <==> CanGoOn(STRUCTURAL, body, c)
    ensures CanEnd(trust, body, c) <==> CanEnd(STRUCTURAL, body, c)
  {
    hide Executes, CanDelegate;
    forall events, d ensures Executes(trust, body, c, events, d) <==> Executes(STRUCTURAL, body, c, events, d) {
      Coincide(trust, body, c, events, d);
    }
    forall n: nat ensures GoesOnFor(trust, body, c, n) <==> GoesOnFor(STRUCTURAL, body, c, n) {}
  }

  // A trusted call may always end the function.
  lemma DelegatingEnds(trust: Instr -> bool, body: seq<Stmt>, c: Kont)
    requires CanDelegate(trust, body, c)
    ensures CanEnd(trust, body, c)
  {
    hide Moves, Focus, Executes;
    var events, d :| Executes(STRUCTURAL, body, c, events, d) && AtTrusted(trust, d);
    var before := StructuralIsTrusted(trust, body, c, events, d);
    TrustedMoves(trust, body, d);
    var k := Focus(d).k;
    PausedMoves(trust, body, k);
    Ended(trust, body);
    Step(trust, body, Trusted(k), Move(Jump(TrustedStop), Done), [], Done);
    Step(trust, body, d, Move(Emit(Focus(d).s.simple.id), Trusted(k)), [Jump(TrustedStop)] + [], Done);
    Join(trust, body, c, before, d, [Emit(Focus(d).s.simple.id)] + ([Jump(TrustedStop)] + []), Done);
  }

  lemma Ended(trust: Instr -> bool, body: seq<Stmt>)
    ensures Executes(trust, body, Done, [], Done)
  {}

  // A trapped point just out of a trusted call is trapped where the call returns to.
  lemma TrappedBehind(trust: Instr -> bool, body: seq<Stmt>, events: seq<Event>, c: Kont)
    returns (events': seq<Event>, s: Kont)
    requires Trapped(trust, body, events, c)
    ensures Trapped(trust, body, events', s) && Reaches(STRUCTURAL, body, Start(body), s)
  {
    hide Moves, Focus, Executes;
    if c == Done { Ended(trust, body); }
    s := TrustedIsStructural(trust, body, Start(body), Start(body), events, c);
    events' := events;
    if c != s {
      PausedMoves(trust, body, s);
      Here(trust, body, s);
      Step(trust, body, c, Move(Jump(Normal), s), [], s);
      Join(trust, body, Start(body), events, c, [Jump(Normal)] + [], s);
      events' := events + ([Jump(Normal)] + []);
      if CanEnd(trust, body, s) {
        var rest :| Executes(trust, body, s, rest, Done);
        Step(trust, body, c, Move(Jump(Normal), s), rest, Done);
      }
      forall n: nat ensures GoesOnFor(trust, body, s, n) {
        assert GoesOnFor(trust, body, c, n + 1);
        BehindGoesOn(trust, body, s, n);
      }
    }
  }

  lemma Here(trust: Instr -> bool, body: seq<Stmt>, c: Kont)
    ensures Executes(trust, body, c, [], c)
  {}

  lemma BehindGoesOn(trust: Instr -> bool, body: seq<Stmt>, s: Kont, n: nat)
    requires GoesOnFor(trust, body, Trusted(s), n + 1) && !CanEnd(trust, body, Trusted(s))
    ensures GoesOnFor(trust, body, s, n)
  {
    hide Moves, Focus;
    var long, d :| n + 1 <= |long| && Executes(trust, body, Trusted(s), long, d);
    var m :| m in Moves(trust, body, Focus(Trusted(s))) && m.event == long[0]
      && Executes(trust, body, m.next, long[1..], d);
    PausedMoves(trust, body, s);
    if m.next == Done {
      Ended(trust, body);
      Step(trust, body, Trusted(s), m, [], Done);
    }
    assert n <= |long[1..]|;
  }

  /****** The verdict under trust ******/

  // UnresolvedLoop on the graph built with trusted calls: structural execution reaches a
  // point it can run on from without end, but neither end the function nor come to a
  // trusted call.
  lemma TrustVerdict(body: seq<Stmt>, trust: Instr -> bool)
    requires WellFormed(body)
    ensures (exists b :: Verdict.Trap(GraphFor(body, trust), b)) <==>
      (exists events, c :: Stranded(trust, body, events, c))
  {
    hide Verdict.Trap, Executes, CanDelegate, CanGoOn, CanEnd;
    VerdictOnExecutions(body, trust);
    if events, c :| Trapped(trust, body, events, c) {
      var e, s := TrappedBehind(trust, body, events, c);
      if CanDelegate(trust, body, s) { DelegatingEnds(trust, body, s); }
      CoincideFrom(trust, body, s);
      var e' :| Executes(STRUCTURAL, body, Start(body), e', s);
      assert Stranded(trust, body, e', s);
    }
    if events, c :| Stranded(trust, body, events, c) {
      CoincideFrom(trust, body, c);
      var e := StructuralIsTrusted(trust, body, Start(body), events, c);
      assert Trapped(trust, body, e, c);
    }
  }

  // From body to verdict: the builder's graph and the verdict computed on it answer the
  // question about the structural graph and the one about executions.
  method LoopVerdict(body: seq<Stmt>, trust: Instr -> bool) returns (unresolved: bool)
    ensures NoRepeats(LabelsOfList(body)) && Merging.ApartAll(body, trust) ==>
      (unresolved <==> exists c :: TrustedGraph.Undelegated(GraphFor(body, STRUCTURAL), trust, c))
    ensures WellFormed(body) ==> (unresolved <==> exists events, c :: Stranded(trust, body, events, c))
  {
    hide Verdict.Trap, Stranded, Build, WellFormed, Verdict.ExitIsFinal, NoRepeats, Merging.ApartAll,
      TrustedGraph.Undelegated;
    var g, calls := Compiler.BuildGraph(body, trust);
    assert g == GraphFor(body, trust);
    ExitFinal(body, trust);
    unresolved := Verdict.UnresolvedLoop(g);
    if NoRepeats(LabelsOfList(body)) && Merging.ApartAll(body, trust) { TrustedGraph.VerdictUnderTrust(body, trust); }
    if WellFormed(body) { TrustVerdict(body, trust); }
  }
}
