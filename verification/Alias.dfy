/**
 Alias escapes: a tracked binding that was assigned into another one escapes if the other
 one is active, or escapes itself.
 */
module Alias {
  // The tracked bindings of one kind: is one active (a cancel that is called, a group that is
  // started or joined), and which bindings has its value been assigned into?
  datatype Bindings = Bindings(active: seq<bool>, pending: seq<seq<nat>>)

  predicate Valid(b: Bindings) {
    |b.pending| == |b.active| && forall i, a :: 0 <= i < |b.pending| && a in b.pending[i] ==> a < |b.active|
  }

  /****** Alias chains ******/

  // chain leads from i to j by one alias after the other, at least one.
  ghost predicate IsChain(b: Bindings, i: nat, chain: seq<nat>, j: nat)
    requires Valid(b)
    decreases chain
  {
    i < |b.pending| && chain != [] && chain[0] in b.pending[i] &&
    if |chain| == 1 then chain[0] == j else IsChain(b, chain[0], chain[1..], j)
  }

  // A chain leads from i to a binding that is active or escapes to begin with.
  ghost predicate Doomed(b: Bindings, start: seq<bool>, i: nat)
    requires Valid(b) && |start| == |b.active|
  {
    exists chain, j: nat :: IsChain(b, i, chain, j) && j < |start| && (b.active[j] || start[j])
  }

  ghost predicate EscapesFinally(b: Bindings, start: seq<bool>, i: nat)
    requires Valid(b) && |start| == |b.active| && i < |start|
  {
    start[i] || Doomed(b, start, i)
  }

  lemma DoomedStep(b: Bindings, start: seq<bool>, i: nat, a: nat)
    requires Valid(b) && |start| == |b.active| && i < |b.active| && a in b.pending[i]
    requires b.active[a] || EscapesFinally(b, start, a)
    ensures Doomed(b, start, i)
  {
    if b.active[a] || start[a] {
      assert IsChain(b, i, [a], a);
    } else {
      var chain, j: nat :| IsChain(b, a, chain, j) && j < |start| && (b.active[j] || start[j]);
      assert ([a] + chain)[1..] == chain;
      assert IsChain(b, i, [a] + chain, j);
    }
  }

  // Once no rule applies any more, everything a chain dooms has escaped.
  ghost predicate Settled(b: Bindings, esc: seq<bool>)
    requires Valid(b) && |esc| == |b.active|
  {
    forall i, a :: 0 <= i < |esc| && a in b.pending[i] && (b.active[a] || esc[a]) ==> esc[i]
  }

  lemma {:induction false} ChainEscapes(b: Bindings, esc: seq<bool>, i: nat, chain: seq<nat>, j: nat)
    requires Valid(b) && |esc| == |b.active| && Settled(b, esc) && IsChain(b, i, chain, j) && j < |esc|
      && (b.active[j] || esc[j])
    ensures i < |esc| && esc[i]
    decreases chain
  {
    if |chain| > 1 { ChainEscapes(b, esc, chain[0], chain[1..], j); }
  }

  ghost predicate Between(b: Bindings, start: seq<bool>, esc: seq<bool>)
    requires Valid(b) && |start| == |b.active|
  {
    |esc| == |start| && forall i :: 0 <= i < |start| ==>
      (start[i] ==> esc[i]) && (esc[i] ==> EscapesFinally(b, start, i))
  }

  lemma SettledIsFinal(b: Bindings, start: seq<bool>, esc: seq<bool>)
    requires Valid(b) && |start| == |b.active| && Between(b, start, esc) && Settled(b, esc)
    ensures forall i :: 0 <= i < |start| ==> (esc[i] <==> EscapesFinally(b, start, i))
  {
    forall i | 0 <= i < |start| && Doomed(b, start, i) ensures esc[i] {
      var chain, j: nat :| IsChain(b, i, chain, j) && j < |start| && (b.active[j] || start[j]);
      ChainEscapes(b, esc, i, chain, j);
    }
  }

  /****** The fixed point ******/

  // Bindings that have not escaped.
  ghost function Unset(esc: seq<bool>): nat {
    if esc == [] then 0 else Unset(esc[..|esc| - 1]) + if esc[|esc| - 1] then 0 else 1
  }

  lemma {:induction false} SetOne(esc: seq<bool>, i: nat)
    requires i < |esc| && !esc[i]
    ensures Unset(esc[i := true]) == Unset(esc) - 1
  {
    var last := |esc| - 1;
    if i < last {
      SetOne(esc[..last], i);
      assert esc[i := true][..last] == esc[..last][i := true];
    } else {
      assert esc[i := true][..last] == esc[..last];
    }
  }

  lemma {:induction false} UnsetBound(esc: seq<bool>)
    ensures Unset(esc) <= |esc|
  {
    if esc != [] { UnsetBound(esc[..|esc| - 1]); }
  }

  lemma AliasesInRange(b: Bindings, i: nat)
    requires Valid(b) && i < |b.pending|
    ensures forall m :: 0 <= m < |b.pending[i]| ==> b.pending[i][m] < |b.active|
  {
    forall m | 0 <= m < |b.pending[i]| ensures b.pending[i][m] < |b.active| { assert b.pending[i][m] in b.pending[i]; }
  }

  // Coming to i with these escapes, a pass finds an alias of i that is active or escapes.
  predicate Catches(b: Bindings, esc: seq<bool>, i: nat)
    requires Valid(b) && |esc| == |b.active| && i < |esc|
  {
    exists a :: a in b.pending[i] && a < |esc| && (b.active[a] || esc[a])
  }

  // A pass from binding i on: what it marks, it takes into account at once.
  function PassFrom(b: Bindings, esc: seq<bool>, i: nat): (r: seq<bool>)
    requires Valid(b) && |esc| == |b.active| && i <= |esc|
    ensures |r| == |esc|
    decreases |esc| - i
  {
    if i == |esc| then esc else PassFrom(b, if Catches(b, esc, i) then esc[i := true] else esc, i + 1)
  }

  // The escapes after n passes.
  function After(b: Bindings, esc: seq<bool>, n: nat): (r: seq<bool>)
    requires Valid(b) && |esc| == |b.active|
    ensures |r| == |esc|
  {
    if n == 0 then esc else PassFrom(b, After(b, esc, n - 1), 0)
  }

  // The loop over one binding's aliases, up to the first that counts.
  method FindAlias(b: Bindings, esc: array<bool>, i: nat) returns (found: bool)
    requires Valid(b) && esc.Length == |b.active| && i < esc.Length
    ensures found <==> Catches(b, esc[..], i)
  {
    var aliases := b.pending[i];
    AliasesInRange(b, i);
    for k := 0 to |aliases|
      invariant forall m :: 0 <= m < k ==> !(b.active[aliases[m]] || esc[aliases[m]])
    {
      var alias := aliases[k];
      assert alias in b.pending[i];
      if b.active[alias] || esc[alias] { return true; }
    }
    return false;
  }

  lemma CaughtIsDoomed(b: Bindings, start: seq<bool>, esc: seq<bool>, i: nat)
    requires Valid(b) && |start| == |b.active| && Between(b, start, esc) && i < |esc| && Catches(b, esc, i)
    ensures Between(b, start, esc[i := true])
  {
    hide EscapesFinally, Doomed;
    var a :| a in b.pending[i] && a < |esc| && (b.active[a] || esc[a]);
    DoomedStep(b, start, i, a);
    assert EscapesFinally(b, start, i) by { DoomedEscapes(b, start, i); }
  }

  lemma DoomedEscapes(b: Bindings, start: seq<bool>, i: nat)
    requires Valid(b) && |start| == |b.active| && i < |start| && Doomed(b, start, i)
    ensures EscapesFinally(b, start, i)
  {}

  // One pass over the bindings of a kind.
  method Sweep(b: Bindings, esc: array<bool>, ghost start: seq<bool>) returns (changed: bool)
    requires Valid(b) && esc.Length == |b.active| == |start| && Between(b, start, esc[..])
    modifies esc
    ensures Between(b, start, esc[..]) && esc[..] == PassFrom(b, old(esc[..]), 0)
    ensures changed <==> esc[..] != old(esc[..])
    ensures changed ==> Unset(esc[..]) < Unset(old(esc[..]))
    ensures !changed ==> Settled(b, esc[..])
  {
    hide EscapesFinally, Catches, Between, Unset, Valid;
    changed := false;
    for i := 0 to esc.Length
      invariant PassFrom(b, esc[..], i) == PassFrom(b, old(esc[..]), 0)
      invariant Between(b, start, esc[..])
      invariant if changed then Unset(esc[..]) < Unset(old(esc[..])) else esc[..] == old(esc[..])
      invariant !changed ==> forall k :: 0 <= k < i && Catches(b, esc[..], k) ==> esc[k]
    {
      ghost var here := esc[..];
      if esc[i] { assert here[i := true] == here; continue; }
      var found := FindAlias(b, esc, i);
      if found {
        CaughtIsDoomed(b, start, here, i);
        SetOne(here, i);
        esc[i] := true;
        assert esc[..] == here[i := true];
        changed := true;
      }
    }
    if !changed { NothingCaught(b, esc[..]); }
  }

  lemma NothingCaught(b: Bindings, esc: seq<bool>)
    requires Valid(b) && |esc| == |b.active| && forall k :: 0 <= k < |esc| && Catches(b, esc, k) ==> esc[k]
    ensures Settled(b, esc)
  {
    forall i, a | 0 <= i < |esc| && a in b.pending[i] && (b.active[a] || esc[a]) ensures esc[i] {
      assert Catches(b, esc, i);
    }
  }

  /****** How many passes ******/

  // Passes only ever mark.
  lemma {:induction false} PassKeeps(b: Bindings, esc: seq<bool>, i: nat)
    requires Valid(b) && |esc| == |b.active| && i <= |esc|
    ensures var r := PassFrom(b, esc, i);
      (forall k :: 0 <= k < |esc| && esc[k] ==> r[k]) && (forall k :: 0 <= k < i ==> r[k] == esc[k])
      && Unset(r) <= Unset(esc) && (r != esc ==> Unset(r) < Unset(esc))
    decreases |esc| - i
  {
    hide Catches, Unset;
    if i < |esc| {
      var next := if Catches(b, esc, i) then esc[i := true] else esc;
      PassKeeps(b, next, i + 1);
      if next != esc { SetOne(esc, i); }
    }
  }

  // While passes change something, each leaves at least one binding less.
  lemma {:induction false} Dwindles(b: Bindings, e: seq<bool>, j: nat, n: nat)
    requires Valid(b) && |e| == |b.active| && j <= n && (n > 0 ==> After(b, e, n) != After(b, e, n - 1))
    ensures Unset(After(b, e, n)) + (n - j) <= Unset(After(b, e, j))
    ensures forall k: nat :: 0 < k <= n ==> After(b, e, k) != After(b, e, k - 1)
    decreases n
  {
    hide Unset, PassFrom;
    if n > 0 {
      PassKeeps(b, After(b, e, n - 1), 0);
      if n > 1 { assert After(b, e, n - 1) != After(b, e, n - 2); }
      Dwindles(b, e, if j < n then j else n - 1, n - 1);
    }
  }

  // A pass that changes something is at most the n-th for n bindings.
  lemma FewPasses(b: Bindings, e: seq<bool>, n: nat)
    requires Valid(b) && |e| == |b.active| && n > 0 && After(b, e, n) != After(b, e, n - 1)
    ensures n <= |e|
  {
    Dwindles(b, e, 0, n);
    UnsetBound(e);
  }

  lemma PassBound(c: Bindings, c0: seq<bool>, g: Bindings, g0: seq<bool>, n: nat)
    requires Valid(c) && |c0| == |c.active| && Valid(g) && |g0| == |g.active| && EndsAfter(c, c0, g, g0, n)
    ensures n <= 1 || n - 1 <= |c0| || n - 1 <= |g0|
  {
    if n > 1 {
      if After(c, c0, n - 1) != After(c, c0, n - 2) { FewPasses(c, c0, n - 1); } else { FewPasses(g, g0, n - 1); }
    }
  }

  // The loop over both kinds ends with pass n: the first in which nothing changes.
  ghost predicate EndsAfter(c: Bindings, c0: seq<bool>, g: Bindings, g0: seq<bool>, n: nat)
    requires Valid(c) && |c0| == |c.active| && Valid(g) && |g0| == |g.active|
  {
    && n > 0 && After(c, c0, n) == After(c, c0, n - 1) && After(g, g0, n) == After(g, g0, n - 1)
    && forall k: nat :: 0 < k < n ==> After(c, c0, k) != After(c, c0, k - 1) || After(g, g0, k) != After(g, g0, k - 1)
  }

  lemma Ends(c: Bindings, c0: seq<bool>, g: Bindings, g0: seq<bool>, n: nat)
    requires Valid(c) && |c0| == |c.active| && Valid(g) && |g0| == |g.active|
    requires n > 0 && After(c, c0, n) == After(c, c0, n - 1) && After(g, g0, n) == After(g, g0, n - 1)
    requires forall k: nat :: 0 < k < n ==>
      After(c, c0, k) != After(c, c0, k - 1) || After(g, g0, k) != After(g, g0, k - 1)
    ensures EndsAfter(c, c0, g, g0, n)
  {}

  // The last loop: a group that another one was assigned into escapes.
  method MarkTargets(b: Bindings, esc: array<bool>)
    requires Valid(b) && esc.Length == |b.active|
    modifies esc
    ensures forall k :: 0 <= k < esc.Length ==>
      (esc[k] <==> old(esc[k]) || exists m :: 0 <= m < |b.pending| && k in b.pending[m])
  {
    for i := 0 to esc.Length
      invariant forall k :: 0 <= k < esc.Length ==>
        (esc[k] <==> old(esc[k]) || exists m :: 0 <= m < i && k in b.pending[m])
    {
      var aliases := b.pending[i];
      for n := 0 to |aliases|
        invariant forall k :: 0 <= k < esc.Length ==>
          (esc[k] <==> old(esc[k]) || (exists m :: 0 <= m < i && k in b.pending[m]) || k in aliases[..n])
      {
        assert aliases[n] in b.pending[i] && aliases[..n + 1] == aliases[..n] + [aliases[n]];
        esc[aliases[n]] := true;
      }
      assert aliases[..|aliases|] == aliases;
    }
  }

  // resolveAliasEscapes.  A cancel escapes in the end exactly if it did at the start or an
  // alias chain leads from it to an active or initially escaping one; a group also if
  // another one was assigned into it.
  method ResolveAliasEscapes(cancels: Bindings, cancelEscapes: array<bool>, groups: Bindings, groupEscapes: array<bool>)
    returns (passes: nat)
    requires Valid(cancels) && cancelEscapes.Length == |cancels.active|
    requires Valid(groups) && groupEscapes.Length == |groups.active| && cancelEscapes != groupEscapes
    modifies cancelEscapes, groupEscapes
    ensures forall i :: 0 <= i < cancelEscapes.Length ==>
      (cancelEscapes[i] <==> EscapesFinally(cancels, old(cancelEscapes[..]), i))
    ensures forall i :: 0 <= i < groupEscapes.Length ==>
      (groupEscapes[i] <==>
        EscapesFinally(groups, old(groupEscapes[..]), i)
          || exists m :: 0 <= m < |groups.pending| && i in groups.pending[m])
    ensures EndsAfter(cancels, old(cancelEscapes[..]), groups, old(groupEscapes[..]), passes)
    ensures passes <= |cancels.active| + |groups.active| + 1
  {
    hide Unset, Settled, EndsAfter, PassFrom, Valid;
    ghost var c0, g0 := cancelEscapes[..], groupEscapes[..];
    var changed := true;
    passes := 0;
    while changed
      invariant Between(cancels, c0, cancelEscapes[..]) && Between(groups, g0, groupEscapes[..])
      invariant !changed ==> Settled(cancels, cancelEscapes[..]) && Settled(groups, groupEscapes[..])
      invariant cancelEscapes[..] == After(cancels, c0, passes) && groupEscapes[..] == After(groups, g0, passes)
      invariant !changed ==> EndsAfter(cancels, c0, groups, g0, passes)
      invariant changed ==> forall k: nat :: 0 < k <= passes ==>
        After(cancels, c0, k) != After(cancels, c0, k - 1) || After(groups, g0, k) != After(groups, g0, k - 1)
      decreases Unset(cancelEscapes[..]) + Unset(groupEscapes[..]), if changed then 1 else 0
    {
      passes := passes + 1;
      var c := Sweep(cancels, cancelEscapes, c0);
      var g := Sweep(groups, groupEscapes, g0);
      changed := c || g;
      if !changed { Ends(cancels, c0, groups, g0, passes); }
    }
    PassBound(cancels, c0, groups, g0, passes);
    SettledIsFinal(cancels, c0, cancelEscapes[..]);
    SettledIsFinal(groups, g0, groupEscapes[..]);
    MarkTargets(groups, groupEscapes);
  }

  /****** When one pass per binding is not enough ******/

  // No binding escapes at first, only the last has an active alias, and each other one is
  // assigned into the next and into none beyond.
  ghost predicate Staircase(b: Bindings, e: seq<bool>)
    requires Valid(b) && |e| == |b.active|
  {
    && (forall i :: 0 <= i < |e| ==> !e[i])
    && (forall i: nat :: i + 1 < |e| ==> Stair(b, i))
    && (|e| > 0 ==> exists a :: a in b.pending[|e| - 1] && b.active[a])
  }

  ghost predicate Stair(b: Bindings, i: nat)
    requires Valid(b) && i < |b.active|
  {
    i + 1 in b.pending[i] && forall a :: a in b.pending[i] ==> a <= i + 1 && !b.active[a]
  }

  // The last k of n bindings escape.
  function Top(n: nat, k: nat): seq<bool> {
    seq(n, i => i >= n - k)
  }

  // On a staircase each pass marks one binding, from the last down.
  lemma {:induction false} StairPass(b: Bindings, e: seq<bool>, k: nat, i: nat)
    requires Valid(b) && |e| == |b.active| && Staircase(b, e) && k < |e| && i <= |e|
    ensures PassFrom(b, if i < |e| - k then Top(|e|, k) else Top(|e|, k + 1), i) == Top(|e|, k + 1)
    decreases |e| - i
  {
    var n := |e|;
    if i < n {
      var cur := if i < n - k then Top(n, k) else Top(n, k + 1);
      StairPass(b, e, k, i + 1);
      if i < n - k - 1 {
        assert Stair(b, i) && !Catches(b, cur, i);
      } else if i == n - k - 1 {
        assert Catches(b, cur, i) by { if k > 0 { assert Stair(b, i); } }
        assert cur[i := true] == Top(n, k + 1);
      } else {
        assert cur[i := true] == cur;
      }
    }
  }

  lemma {:induction false} StairAfter(b: Bindings, e: seq<bool>, k: nat)
    requires Valid(b) && |e| == |b.active| && Staircase(b, e) && k <= |e|
    ensures After(b, e, k) == Top(|e|, k)
  {
    hide Staircase;
    if k > 0 {
      StairAfter(b, e, k - 1);
      StairPass(b, e, k - 1, 0);
    } else {
      assert e == Top(|e|, 0) by { NoneEscape(b, e); }
    }
  }

  lemma NoneEscape(b: Bindings, e: seq<bool>)
    requires Valid(b) && |e| == |b.active| && Staircase(b, e)
    ensures forall i :: 0 <= i < |e| ==> !e[i]
  {}

  // The same number unset, and nothing taken back: the same escapes.
  lemma {:induction false} SameUnset(p: seq<bool>, q: seq<bool>)
    requires |p| == |q| && Unset(p) <= Unset(q) && forall i :: 0 <= i < |p| && p[i] ==> q[i]
    ensures p == q
    decreases |p|
  {
    if p != q {
      var i: nat :| i < |p| && p[i] != q[i];
      SetOne(p, i);
      MoreSet(p[i := true], q);
    }
  }

  lemma {:induction false} MoreSet(p: seq<bool>, q: seq<bool>)
    requires |p| == |q| && forall i :: 0 <= i < |p| && p[i] ==> q[i]
    ensures Unset(q) <= Unset(p)
    decreases |p|
  {
    if p != [] { MoreSet(p[..|p| - 1], q[..|q| - 1]); }
  }

  // When every one of as many passes as there are bindings changes something, pass k marks
  // exactly one.
  lemma MarksOne(b: Bindings, e: seq<bool>, k: nat) returns (i: nat)
    requires Valid(b) && |e| == |b.active| && 0 < k <= |e| && After(b, e, |e|) != After(b, e, |e| - 1)
    ensures i < |e| && !After(b, e, k - 1)[i] && After(b, e, k) == After(b, e, k - 1)[i := true]
  {
    hide Unset, PassFrom;
    var p, q := After(b, e, k - 1), After(b, e, k);
    Dwindles(b, e, k, |e|);
    Dwindles(b, e, 0, k - 1) by { if k > 1 { assert After(b, e, k - 1) != After(b, e, k - 2); } }
    UnsetBound(e);
    PassKeeps(b, p, 0);
    i :| i < |e| && p[i] != q[i];
    SetOne(p, i);
    SameUnset(p[i := true], q);
  }

  // A pass that marks i alone: i was caught, and nobody else was who is not marked.
  lemma {:induction false} MarkedAlone(b: Bindings, e: seq<bool>, i: nat, m: nat)
    requires Valid(b) && |e| == |b.active| && i < |e| && !e[i] && m <= |e|
    requires PassFrom(b, if m <= i then e else e[i := true], m) == e[i := true]
    ensures m <= i ==> Catches(b, e, i)
    ensures forall j :: m <= j < |e| && !e[j] ==>
      (j < i ==> !Catches(b, e, j)) && (j > i ==> !Catches(b, e[i := true], j))
    decreases |e| - m
  {
    hide Catches;
    if m < |e| {
      var cur := if m <= i then e else e[i := true];
      var next := if Catches(b, cur, m) then cur[m := true] else cur;
      PassKeeps(b, next, m + 1);
      if m == i {
        assert next == e[i := true];
      } else {
        assert next == cur;
        if Catches(b, cur, m) { assert next[m] && e[m]; }
      }
      MarkedAlone(b, e, i, m + 1);
    }
  }

  lemma CatchesMore(b: Bindings, p: seq<bool>, q: seq<bool>, i: nat)
    requires Valid(b) && |p| == |q| == |b.active| && i < |p| && forall a :: 0 <= a < |p| && p[a] ==> q[a]
    ensures Catches(b, p, i) ==> Catches(b, q, i)
  {}

  // Two passes in a row, marking i and then j: j stands before i and is assigned into it.
  lemma Descends(b: Bindings, p: seq<bool>, i: nat, j: nat)
    requires Valid(b) && |p| == |b.active| && i < |p| && j < |p| && !p[i] && !p[i := true][j]
    requires PassFrom(b, p, 0) == p[i := true] && PassFrom(b, p[i := true], 0) == p[i := true][j := true]
    ensures j < i && i in b.pending[j] && !Catches(b, p, j)
  {
    MarkedAlone(b, p, i, 0);
    MarkedAlone(b, p[i := true], j, 0);
    CatchesMore(b, p, p[i := true], j);
  }

  // So the bindings are marked from the last to the first.
  lemma {:induction false} MarkedBelow(b: Bindings, e: seq<bool>, k: nat) returns (i: nat)
    requires Valid(b) && |e| == |b.active| && 0 < k <= |e| && After(b, e, |e|) != After(b, e, |e| - 1)
    ensures i <= |e| - k && !After(b, e, k - 1)[i] && After(b, e, k) == After(b, e, k - 1)[i := true]
    decreases k
  {
    hide Catches, PassFrom;
    i := MarksOne(b, e, k);
    if k > 1 {
      var h := MarkedBelow(b, e, k - 1);
      Descends(b, After(b, e, k - 2), h, i);
    }
  }

  lemma {:induction false} MarkedAbove(b: Bindings, e: seq<bool>, k: nat) returns (i: nat)
    requires Valid(b) && |e| == |b.active| && 0 < k <= |e| && After(b, e, |e|) != After(b, e, |e| - 1)
    ensures |e| - k <= i < |e| && !After(b, e, k - 1)[i] && After(b, e, k) == After(b, e, k - 1)[i := true]
    decreases |e| - k
  {
    hide Catches, PassFrom;
    i := MarksOne(b, e, k);
    if k < |e| {
      var j := MarkedAbove(b, e, k + 1);
      Descends(b, After(b, e, k - 1), i, j);
    }
  }

  lemma {:induction false} MarkedInTurn(b: Bindings, e: seq<bool>, k: nat)
    requires Valid(b) && |e| == |b.active| && k <= |e| && 0 < |e| && After(b, e, |e|) != After(b, e, |e| - 1)
    ensures After(b, e, k) == Top(|e|, k)
    decreases k
  {
    hide Catches, PassFrom, Unset;
    if k == 0 {
      Dwindles(b, e, 0, |e|);
      UnsetBound(e);
      MoreSet(Top(|e|, 0), e);
      UnsetBound(Top(|e|, 0));
      SameUnset(Top(|e|, 0), e);
    } else {
      MarkedInTurn(b, e, k - 1);
      var i := MarkedBelow(b, e, k);
      var j := MarkedAbove(b, e, k);
      assert i == j by { assert After(b, e, k)[j] && After(b, e, k)[i]; }
      assert Top(|e|, k - 1)[|e| - k := true] == Top(|e|, k);
    }
  }

  // The n-th pass over n bindings still changes something exactly on a staircase.
  lemma LastPassChanges(b: Bindings, e: seq<bool>)
    requires Valid(b) && |e| == |b.active| && |e| > 0
    ensures After(b, e, |e|) != After(b, e, |e| - 1) <==> Staircase(b, e)
  {
    hide PassFrom, Catches;
    var n := |e|;
    if Staircase(b, e) {
      StairAfter(b, e, n);
      StairAfter(b, e, n - 1);
      assert Top(n, n)[0] && !Top(n, n - 1)[0];
    }
    if After(b, e, n) != After(b, e, n - 1) {
      MarkedInTurn(b, e, 0);
      assert e == Top(n, 0);
      MarkedInTurn(b, e, 1);
      LastIsCaught(b, e);
      forall i: nat | i + 1 < n ensures Stair(b, i) { OneStair(b, e, i); }
    }
  }

  lemma LastIsCaught(b: Bindings, e: seq<bool>)
    requires Valid(b) && |e| == |b.active| && |e| > 0 && e == Top(|e|, 0) && PassFrom(b, e, 0) == Top(|e|, 1)
    ensures exists a :: a in b.pending[|e| - 1] && b.active[a]
  {
    assert Top(|e|, 1) == e[|e| - 1 := true];
    MarkedAlone(b, e, |e| - 1, 0);
  }

  lemma OneStair(b: Bindings, e: seq<bool>, i: nat)
    requires Valid(b) && |e| == |b.active| && i + 1 < |e| && After(b, e, |e|) != After(b, e, |e| - 1)
    ensures Stair(b, i)
  {
    hide PassFrom, Top;
    var k := |e| - i - 2;
    MarkedInTurn(b, e, k);
    MarkedInTurn(b, e, k + 1);
    MarkedInTurn(b, e, k + 2);
    StairFrom(b, |e|, i);
  }

  lemma StairFrom(b: Bindings, n: nat, i: nat)
    requires Valid(b) && n == |b.active| && i + 1 < n
    requires PassFrom(b, Top(n, n - i - 2), 0) == Top(n, n - i - 1)
      && PassFrom(b, Top(n, n - i - 1), 0) == Top(n, n - i)
    ensures Stair(b, i)
  {
    hide PassFrom;
    var p := Top(n, n - i - 2);
    assert p[i + 1 := true] == Top(n, n - i - 1) && Top(n, n - i - 1)[i := true] == Top(n, n - i);
    Descends(b, p, i + 1, i);
    forall a | a in b.pending[i] ensures a <= i + 1 && !b.active[a] { assert !(b.active[a] || p[a]); }
  }

  // The loop needs no more passes than there are bindings, exactly if there are some, and
  // they are not all of one kind and a staircase.
  lemma AsManyPasses(c: Bindings, c0: seq<bool>, g: Bindings, g0: seq<bool>, n: nat)
    requires Valid(c) && |c0| == |c.active| && Valid(g) && |g0| == |g.active| && EndsAfter(c, c0, g, g0, n)
    ensures n <= |c0| + |g0| <==>
      !(|c0| == 0 && Staircase(g, g0)) && !(|g0| == 0 && Staircase(c, c0))
  {
    hide Staircase, Stair, PassFrom;
    PassBound(c, c0, g, g0, n);
    if |c0| == 0 && |g0| == 0 {
      EmptyStairs(g, g0);
    } else if |c0| == 0 {
      OneKind(g, g0, c, c0, n) by { Swapped(c, c0, g, g0, n); }
    } else if |g0| == 0 {
      OneKind(c, c0, g, g0, n);
    }
  }

  lemma EmptyStairs(b: Bindings, e: seq<bool>)
    requires Valid(b) && |e| == |b.active| == 0
    ensures Staircase(b, e)
  {}

  lemma Swapped(c: Bindings, c0: seq<bool>, g: Bindings, g0: seq<bool>, n: nat)
    requires Valid(c) && |c0| == |c.active| && Valid(g) && |g0| == |g.active| && EndsAfter(c, c0, g, g0, n)
    ensures EndsAfter(g, g0, c, c0, n)
  {}

  lemma OneKind(b: Bindings, e: seq<bool>, none: Bindings, e0: seq<bool>, n: nat)
    requires Valid(b) && |e| == |b.active| && |e| > 0 && Valid(none) && e0 == [] && |none.active| == 0
      && EndsAfter(b, e, none, e0, n)
    ensures n <= |e| <==> !Staircase(b, e)
  {
    hide Staircase, PassFrom;
    PassBound(b, e, none, e0, n);
    LastPassChanges(b, e);
    forall k: nat ensures After(none, e0, k) == [] {}
    if n <= |e| && After(b, e, |e|) != After(b, e, |e| - 1) { Dwindles(b, e, 0, |e|); }
  }

  // Two cancels that alias each other, the first one called: three passes.
  const EACH_OTHER := Bindings([true, false], [[1], [0]])

  lemma ThreePasses(n: nat)
    requires EndsAfter(EACH_OTHER, [false, false], Bindings([], []), [], n)
    ensures n == 3
  {
    var none := Bindings([], []);
    assert Stair(EACH_OTHER, 0) by { assert EACH_OTHER.pending[0] == [1]; }
    assert 0 in EACH_OTHER.pending[1] && EACH_OTHER.active[0];
    assert Staircase(EACH_OTHER, [false, false]);
    PassBound(EACH_OTHER, [false, false], none, [], n);
    AsManyPasses(EACH_OTHER, [false, false], none, [], n);
  }
}
