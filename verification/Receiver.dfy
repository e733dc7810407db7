/**
 What a chain of same-package calls does with one handle: summaries memoised per variable,
 computed depth first, with call cycles cut.

 A cut makes what is above it incomplete, so a frame stores its summary only if no cut below
 it reached past the frame itself.  What is stored is exact nevertheless.
 */
module Receiver {
  import opened Wrappers

  type Var = nat
  type Field = nat

  datatype Summary = Summary(called: set<Field>, waited: set<Field>, fieldEscaped: set<Field>, escapes: bool)

  const EMPTY := Summary({}, {}, {}, false)

  // One occurrence of a variable in its function's body: a use judged on the spot, or a call
  // that hands the variable on to another one (None: a callee that cannot be inspected).
  datatype Use = Here(facts: Summary) | Call(target: Option<Var>, async: bool)

  datatype Program = Program(uses: seq<seq<Use>>)

  ghost predicate InRange(p: Program) {
    forall v: nat, u :: v < |p.uses| && u in p.uses[v] && u.Call? && u.target.Some? ==> u.target.value < |p.uses|
  }

  // Larger than any position on the stack.
  const NO_CYCLE := 0x7fff_ffff_ffff_ffff

  const MAX_DEPTH := 16

  function Merge(s: Summary, o: Summary): Summary {
    Summary(s.called + o.called, s.waited + o.waited, s.fieldEscaped + o.fieldEscaped, s.escapes || o.escapes)
  }

  function MergeInvocation(s: Summary, o: Summary, async: bool): Summary {
    if !async then Merge(s, o)
    else s.(fieldEscaped := s.fieldEscaped + o.called + o.fieldEscaped, escapes := s.escapes || o.escapes)
  }

  /****** Facts and paths ******/

  ghost predicate CalledAt(p: Program, v: Var, f: Field) {
    v < |p.uses| && exists u :: u in p.uses[v] && u.Here? && f in u.facts.called
  }

  ghost predicate WaitedAt(p: Program, v: Var, f: Field) {
    v < |p.uses| && exists u :: u in p.uses[v] && u.Here? && f in u.facts.waited
  }

  ghost predicate FieldEscapesAt(p: Program, v: Var, f: Field) {
    v < |p.uses| && exists u :: u in p.uses[v] && u.Here? && f in u.facts.fieldEscaped
  }

  ghost predicate EscapesAt(p: Program, v: Var) {
    v < |p.uses| && exists u :: u in p.uses[v] && if u.Here? then u.facts.escapes else u.target.None?
  }

  ghost predicate Edge(p: Program, sync: bool, v: Var, w: Var) {
    v < |p.uses| && exists u :: u in p.uses[v] && u.Call? && u.target == Some(w) && (sync ==> !u.async)
  }

  // A path of calls from v to w, synchronous ones if sync is set, that keeps out of avoid.
  ghost predicate IsPath(p: Program, sync: bool, v: Var, path: seq<Var>, w: Var, avoid: set<Var>)
    decreases path
  {
    path != [] && path[0] == v && v !in avoid &&
    if |path| == 1 then v == w else Edge(p, sync, v, path[1]) && IsPath(p, sync, path[1], path[1..], w, avoid)
  }

  ghost predicate Leads(p: Program, sync: bool, v: Var, w: Var, avoid: set<Var>) {
    exists path :: IsPath(p, sync, v, path, w, avoid)
  }

  ghost predicate AsyncEdge(p: Program, v: Var, w: Var) {
    v < |p.uses| && exists u :: u in p.uses[v] && u.Call? && u.target == Some(w) && u.async
  }

  // A path that has an asynchronous call with none but synchronous ones after it.
  ghost predicate IsAsyncPath(p: Program, v: Var, path: seq<Var>, w: Var, avoid: set<Var>)
    decreases path
  {
    |path| > 1 && path[0] == v && v !in avoid &&
    ((AsyncEdge(p, v, path[1]) && IsPath(p, true, path[1], path[1..], w, avoid))
      || (Edge(p, false, v, path[1]) && IsAsyncPath(p, path[1], path[1..], w, avoid)))
  }

  ghost predicate Simple(path: seq<Var>) {
    forall i, j :: 0 <= i < j < |path| ==> path[i] != path[j]
  }

  ghost predicate AsyncLeads(p: Program, v: Var, w: Var) {
    exists path :: IsAsyncPath(p, v, path, w, {})
  }

  ghost predicate AsyncSimply(p: Program, v: Var, w: Var, avoid: set<Var>) {
    exists path :: IsAsyncPath(p, v, path, w, avoid) && Simple(path)
  }

  lemma SimpleCons(v: Var, path: seq<Var>)
    ensures Simple([v] + path) <==> v !in path && Simple(path)
  {
    var more := [v] + path;
    assert forall i :: 0 <= i < |path| ==> more[i + 1] == path[i];
    if Simple(more) {
      forall i | 0 <= i < |path| ensures path[i] != v { assert more[0] != more[i + 1]; }
      forall i, j | 0 <= i < j < |path| ensures path[i] != path[j] { assert more[i + 1] != more[j + 1]; }
    }
  }

  lemma LeadsSelf(p: Program, sync: bool, v: Var)
    ensures Leads(p, sync, v, v, {})
  {
    assert IsPath(p, sync, v, [v], v, {});
  }

  lemma LeadsStep(p: Program, sync: bool, v: Var, x: Var, w: Var)
    requires Edge(p, sync, v, x) && Leads(p, sync, x, w, {})
    ensures Leads(p, sync, v, w, {})
  {
    var path :| IsPath(p, sync, x, path, w, {});
    assert ([v] + path)[1..] == path;
    assert IsPath(p, sync, v, [v] + path, w, {});
  }

  lemma {:induction false} SyncIsPath(p: Program, v: Var, path: seq<Var>, w: Var)
    requires IsPath(p, true, v, path, w, {})
    ensures IsPath(p, false, v, path, w, {})
    decreases path
  {
    if |path| > 1 { SyncIsPath(p, path[1], path[1..], w); }
  }

  lemma {:induction false} AvoidLess(p: Program, sync: bool, v: Var, path: seq<Var>, w: Var, a: set<Var>, b: set<Var>)
    requires IsPath(p, sync, v, path, w, a) && b <= a
    ensures IsPath(p, sync, v, path, w, b)
    decreases path
  {
    if |path| > 1 { AvoidLess(p, sync, path[1], path[1..], w, a, b); }
  }

  lemma {:induction false} AsyncAvoidLess(p: Program, v: Var, path: seq<Var>, w: Var, a: set<Var>, b: set<Var>)
    requires IsAsyncPath(p, v, path, w, a) && b <= a
    ensures IsAsyncPath(p, v, path, w, b)
    decreases path
  {
    if AsyncEdge(p, v, path[1]) && IsPath(p, true, path[1], path[1..], w, a) {
      AvoidLess(p, true, path[1], path[1..], w, a, b);
    } else {
      AsyncAvoidLess(p, path[1], path[1..], w, a, b);
    }
  }

  // A path from v can be taken not to come back to v.
  lemma {:induction false} LeaveForGood(p: Program, sync: bool, v: Var, x: Var, path: seq<Var>, w: Var, avoid: set<Var>)
    returns (first: Var, rest: seq<Var>)
    requires IsPath(p, sync, x, path, w, avoid) && v in path && v != w
    ensures Edge(p, sync, v, first) && IsPath(p, sync, first, rest, w, avoid + {v})
    decreases path
  {
    if v in path[1..] {
      first, rest := LeaveForGood(p, sync, v, path[1], path[1..], w, avoid);
    } else {
      assert path == [x] + path[1..];
      first, rest := path[1], path[1..];
      KeepsOut(p, sync, first, rest, w, avoid, v);
    }
  }

  lemma {:induction false} KeepsOut(p: Program, sync: bool, x: Var, path: seq<Var>, w: Var, avoid: set<Var>, v: Var)
    requires IsPath(p, sync, x, path, w, avoid) && v !in path
    ensures IsPath(p, sync, x, path, w, avoid + {v})
    decreases path
  {
    assert path[0] in path;
    if |path| > 1 { KeepsOut(p, sync, path[1], path[1..], w, avoid, v); }
  }

  lemma {:induction false} AsyncKeepsOut(p: Program, x: Var, path: seq<Var>, w: Var, avoid: set<Var>, v: Var)
    requires IsAsyncPath(p, x, path, w, avoid) && v !in path
    ensures IsAsyncPath(p, x, path, w, avoid + {v})
    decreases path
  {
    assert path[0] in path;
    if AsyncEdge(p, x, path[1]) && IsPath(p, true, path[1], path[1..], w, avoid) {
      KeepsOut(p, true, path[1], path[1..], w, avoid, v);
    } else {
      AsyncKeepsOut(p, path[1], path[1..], w, avoid, v);
    }
  }

  /****** What a summary covers, and that it invents nothing ******/

  ghost predicate CoversSync(p: Program, s: Summary, v: Var, avoid: set<Var>) {
    forall w, f :: Leads(p, true, v, w, avoid) ==>
      (CalledAt(p, w, f) ==> f in s.called) && (WaitedAt(p, w, f) ==> f in s.waited)
  }

  // What asynchronous calls of v start counts as escaping.
  ghost predicate CoversStart(p: Program, s: Summary, v: Var, avoid: set<Var>) {
    forall w, f :: Leads(p, true, v, w, avoid) && CalledAt(p, w, f) ==> f in s.fieldEscaped
  }

  ghost predicate CoversAll(p: Program, s: Summary, v: Var, avoid: set<Var>) {
    && (forall w :: Leads(p, false, v, w, avoid) ==>
      (EscapesAt(p, w) ==> s.escapes) && forall f :: FieldEscapesAt(p, w, f) ==> f in s.fieldEscaped)
    && (forall w, f :: AsyncSimply(p, v, w, avoid) && CalledAt(p, w, f) ==> f in s.fieldEscaped)
  }

  ghost predicate FieldGoesAt(p: Program, v: Var, f: Field, w: Var) {
    (Leads(p, false, v, w, {}) && FieldEscapesAt(p, w, f)) || (AsyncLeads(p, v, w) && CalledAt(p, w, f))
  }

  ghost predicate GroundedFields(p: Program, s: Summary, v: Var) {
    && (forall f :: f in s.called ==> exists w :: Leads(p, true, v, w, {}) && CalledAt(p, w, f))
    && (forall f :: f in s.waited ==> exists w :: Leads(p, true, v, w, {}) && WaitedAt(p, w, f))
    && (forall f :: f in s.fieldEscaped ==> exists w :: FieldGoesAt(p, v, f, w))
  }

  ghost predicate Grounded(p: Program, s: Summary, v: Var) {
    GroundedFields(p, s, v) && (s.escapes ==> exists w :: Leads(p, false, v, w, {}) && EscapesAt(p, w))
  }

  ghost predicate Within(s: Summary, t: Summary) {
    s.called <= t.called && s.waited <= t.waited && s.fieldEscaped <= t.fieldEscaped && (s.escapes ==> t.escapes)
  }

  // Called and waited fields are those of every variable reached by synchronous calls; the
  // handle escapes if it does at any variable reached.  A field escapes only where it does so
  // itself or is called by what an asynchronous call starts; and all of those do of which a
  // path without repetitions tells.
  ghost predicate Exact(p: Program, s: Summary, v: Var) {
    && (forall f :: f in s.called <==> exists w :: Leads(p, true, v, w, {}) && CalledAt(p, w, f))
    && (forall f :: f in s.waited <==> exists w :: Leads(p, true, v, w, {}) && WaitedAt(p, w, f))
    && (s.escapes <==> exists w :: Leads(p, false, v, w, {}) && EscapesAt(p, w))
    && (forall w, f :: Leads(p, false, v, w, {}) && FieldEscapesAt(p, w, f) ==> f in s.fieldEscaped)
    && (forall w, f :: AsyncSimply(p, v, w, {}) && CalledAt(p, w, f) ==> f in s.fieldEscaped)
    && (forall f :: f in s.fieldEscaped ==> exists w :: FieldGoesAt(p, v, f, w))
  }

  lemma CoversIsExact(p: Program, s: Summary, v: Var)
    requires CoversSync(p, s, v, {}) && CoversAll(p, s, v, {}) && Grounded(p, s, v)
    ensures Exact(p, s, v)
  {
    hide Leads, CalledAt, WaitedAt, EscapesAt, FieldEscapesAt, AsyncSimply, FieldGoesAt;
  }

  lemma ExactCovers(p: Program, s: Summary, v: Var, avoid: set<Var>)
    requires Exact(p, s, v)
    ensures CoversSync(p, s, v, avoid) && CoversAll(p, s, v, avoid) && Grounded(p, s, v)
  {
    hide CalledAt, WaitedAt, EscapesAt, FieldEscapesAt, IsPath, Leads, AsyncSimply, FieldGoesAt;
    forall sync, w | Leads(p, sync, v, w, avoid) ensures Leads(p, sync, v, w, {}) {
      AvoidNone(p, sync, v, w, avoid, {});
    }
    forall w | AsyncSimply(p, v, w, avoid) ensures AsyncSimply(p, v, w, {}) { AsyncAvoidNone(p, v, w, avoid, {}); }
  }

  lemma AvoidNone(p: Program, sync: bool, v: Var, w: Var, a: set<Var>, b: set<Var>)
    requires Leads(p, sync, v, w, a) && b <= a
    ensures Leads(p, sync, v, w, b)
  {
    var path :| IsPath(p, sync, v, path, w, a);
    AvoidLess(p, sync, v, path, w, a, b);
  }

  lemma AsyncAvoidNone(p: Program, v: Var, w: Var, a: set<Var>, b: set<Var>)
    requires AsyncSimply(p, v, w, a) && b <= a
    ensures AsyncSimply(p, v, w, b)
  {
    var path :| IsAsyncPath(p, v, path, w, a) && Simple(path);
    AsyncAvoidLess(p, v, path, w, a, b);
  }

  lemma CoversMore(p: Program, s: Summary, t: Summary, v: Var, a: set<Var>, b: set<Var>)
    requires Within(s, t) && a <= b
    ensures CoversSync(p, s, v, a) ==> CoversSync(p, t, v, b)
    ensures CoversStart(p, s, v, a) ==> CoversStart(p, t, v, b)
    ensures CoversAll(p, s, v, a) ==> CoversAll(p, t, v, b)
  {
    hide CalledAt, WaitedAt, EscapesAt, FieldEscapesAt, IsPath, Leads, AsyncSimply;
    forall sync, w | Leads(p, sync, v, w, b) ensures Leads(p, sync, v, w, a) { AvoidNone(p, sync, v, w, b, a); }
    forall w | AsyncSimply(p, v, w, b) ensures AsyncSimply(p, v, w, a) { AsyncAvoidNone(p, v, w, b, a); }
  }

  // The variables on the stack from position low on.
  function From(stack: seq<Var>, low: int): set<Var>
    requires low >= 0
  {
    if low >= |stack| then {} else set x | x in stack[low..]
  }

  lemma FromMono(stack: seq<Var>, low: int, low': int, v: Var)
    requires 0 <= low <= low'
    ensures From(stack, low') <= From(stack, low)
    ensures From(stack + [v], low') <= From(stack, low) + {v}
  {
    if low' < |stack| {
      forall x | x in stack[low'..] ensures x in stack[low..] {
        var i :| low' <= i < |stack| && stack[i] == x;
      }
    }
    if low' < |stack + [v]| {
      forall x | x in (stack + [v])[low'..] ensures x in From(stack, low) + {v} {
        var i :| low' <= i < |stack + [v]| && (stack + [v])[i] == x;
        if i < |stack| { assert stack[low..][i - low] == x; }
      }
    }
  }

  // How far the walk over v's uses has come: facts on the spot are in, and so is what each
  // call leads to without coming back to v or to the cut part of the stack.
  ghost predicate Walked(p: Program, s: Summary, v: Var, n: nat, avoid: set<Var>)
    requires v < |p.uses| && n <= |p.uses[v]|
  {
    && (forall u :: u in p.uses[v][..n] && u.Here? ==> Within(u.facts, s))
    && (forall u :: u in p.uses[v][..n] && u.Call? && u.target.None? ==> s.escapes)
    && (forall u :: u in p.uses[v][..n] && u.Call? && u.target.Some? ==>
          && CoversAll(p, s, u.target.value, avoid + {v})
          && (!u.async ==> CoversSync(p, s, u.target.value, avoid + {v}))
          && (u.async ==> CoversStart(p, s, u.target.value, avoid + {v})))
  }

  lemma WalkedCoversSync(p: Program, s: Summary, v: Var, avoid: set<Var>)
    requires v < |p.uses| && Walked(p, s, v, |p.uses[v]|, avoid)
    ensures CoversSync(p, s, v, avoid)
  {
    assert p.uses[v][..|p.uses[v]|] == p.uses[v];
    forall w, f | Leads(p, true, v, w, avoid)
      ensures (CalledAt(p, w, f) ==> f in s.called) && (WaitedAt(p, w, f) ==> f in s.waited) {
      if w != v {
        var path :| IsPath(p, true, v, path, w, avoid);
        var first, rest := LeaveForGood(p, true, v, v, path, w, avoid);
        var u :| u in p.uses[v] && u.Call? && u.target == Some(first) && !u.async;
        assert Leads(p, true, first, w, avoid + {v});
      }
    }
  }

  lemma WalkedCoversAll(p: Program, s: Summary, v: Var, avoid: set<Var>)
    requires v < |p.uses| && Walked(p, s, v, |p.uses[v]|, avoid)
    ensures CoversAll(p, s, v, avoid)
  {
    assert p.uses[v][..|p.uses[v]|] == p.uses[v];
    forall w | Leads(p, false, v, w, avoid)
      ensures (EscapesAt(p, w) ==> s.escapes) && forall f :: FieldEscapesAt(p, w, f) ==> f in s.fieldEscaped
    {
      if w != v {
        var path :| IsPath(p, false, v, path, w, avoid);
        var first, rest := LeaveForGood(p, false, v, v, path, w, avoid);
        var u :| u in p.uses[v] && u.Call? && u.target == Some(first);
        assert Leads(p, false, first, w, avoid + {v});
      }
    }
    forall w, f | AsyncSimply(p, v, w, avoid) && CalledAt(p, w, f) ensures f in s.fieldEscaped {
      var path :| IsAsyncPath(p, v, path, w, avoid) && Simple(path);
      AsyncStep(p, s, v, path, w, avoid, f);
    }
  }

  lemma AsyncStep(p: Program, s: Summary, v: Var, path: seq<Var>, w: Var, avoid: set<Var>, f: Field)
    requires v < |p.uses| && Walked(p, s, v, |p.uses[v]|, avoid) && CalledAt(p, w, f)
    requires IsAsyncPath(p, v, path, w, avoid) && Simple(path)
    ensures f in s.fieldEscaped
  {
    hide CalledAt, CoversSync;
    assert p.uses[v][..|p.uses[v]|] == p.uses[v];
    var x, rest := path[1], path[1..];
    assert path == [v] + rest;
    SimpleCons(v, rest);
    if AsyncEdge(p, v, x) && IsPath(p, true, x, rest, w, avoid) {
      KeepsOut(p, true, x, rest, w, avoid, v);
      assert Leads(p, true, x, w, avoid + {v});
      var u :| u in p.uses[v] && u.Call? && u.target == Some(x) && u.async;
    } else {
      AsyncKeepsOut(p, x, rest, w, avoid, v);
      assert AsyncSimply(p, x, w, avoid + {v});
      var u :| u in p.uses[v] && u.Call? && u.target == Some(x);
    }
  }

  lemma WalkedMore(p: Program, s: Summary, t: Summary, v: Var, n: nat, a: set<Var>, b: set<Var>)
    requires v < |p.uses| && n <= |p.uses[v]| && Walked(p, s, v, n, a) && Within(s, t) && a <= b
    ensures Walked(p, t, v, n, b)
  {
    hide CoversSync, CoversAll, CoversStart;
    forall u | u in p.uses[v][..n] && u.Call? && u.target.Some?
      ensures CoversAll(p, t, u.target.value, b + {v})
      ensures !u.async ==> CoversSync(p, t, u.target.value, b + {v})
      ensures u.async ==> CoversStart(p, t, u.target.value, b + {v})
    {
      CoversMore(p, s, t, u.target.value, a + {v}, b + {v});
    }
  }

  lemma GroundedHere(p: Program, s: Summary, v: Var, u: Use)
    requires v < |p.uses| && u in p.uses[v] && GroundedFields(p, s, v)
    ensures u.Here? ==> GroundedFields(p, Merge(s, u.facts), v)
    ensures u.Here? && Grounded(p, s, v) ==> Grounded(p, Merge(s, u.facts), v)
    ensures u.Call? && u.target.None? && Grounded(p, s, v) ==> Grounded(p, s.(escapes := true), v)
  {
    LeadsSelf(p, true, v);
    LeadsSelf(p, false, v);
    hide Leads;
    if u.Here? {
      assert forall f :: (f in u.facts.called ==> CalledAt(p, v, f)) && (f in u.facts.waited ==> WaitedAt(p, v, f));
      assert forall f :: f in u.facts.fieldEscaped ==> FieldEscapesAt(p, v, f);
      assert forall f :: f in u.facts.fieldEscaped ==> FieldGoesAt(p, v, f, v);
    }
  }

  lemma AsyncLeadsStep(p: Program, v: Var, x: Var, w: Var)
    ensures Edge(p, false, v, x) && AsyncLeads(p, x, w) ==> AsyncLeads(p, v, w)
    ensures AsyncEdge(p, v, x) && Leads(p, true, x, w, {}) ==> AsyncLeads(p, v, w)
  {
    if Edge(p, false, v, x) && AsyncLeads(p, x, w) {
      var path :| IsAsyncPath(p, x, path, w, {});
      assert ([v] + path)[1..] == path;
      assert IsAsyncPath(p, v, [v] + path, w, {});
    }
    if AsyncEdge(p, v, x) && Leads(p, true, x, w, {}) {
      var path :| IsPath(p, true, x, path, w, {});
      assert ([v] + path)[1..] == path;
      assert IsAsyncPath(p, v, [v] + path, w, {});
    }
  }

  lemma GroundedCall(p: Program, s: Summary, v: Var, w: Var, o: Summary, async: bool)
    requires GroundedFields(p, s, v) && GroundedFields(p, o, w) && Edge(p, !async, v, w)
    requires async ==> AsyncEdge(p, v, w)
    ensures GroundedFields(p, MergeInvocation(s, o, async), v)
    ensures Grounded(p, s, v) && Grounded(p, o, w) ==> Grounded(p, MergeInvocation(s, o, async), v)
  {
    hide CalledAt, WaitedAt, EscapesAt, FieldEscapesAt, IsPath, Leads, AsyncLeads, AsyncEdge;
    assert Edge(p, false, v, w);
    forall x | Leads(p, false, w, x, {}) ensures Leads(p, false, v, x, {}) { LeadsStep(p, false, v, w, x); }
    forall x | !async && Leads(p, true, w, x, {}) ensures Leads(p, true, v, x, {}) { LeadsStep(p, true, v, w, x); }
    forall x ensures AsyncLeads(p, w, x) ==> AsyncLeads(p, v, x) { AsyncLeadsStep(p, v, w, x); }
    forall x | async ensures Leads(p, true, w, x, {}) ==> AsyncLeads(p, v, x) { AsyncLeadsStep(p, v, w, x); }
    forall f, x ensures FieldGoesAt(p, w, f, x) ==> FieldGoesAt(p, v, f, x) {}
    var t := MergeInvocation(s, o, async);
    forall f | f in t.fieldEscaped ensures exists x :: FieldGoesAt(p, v, f, x) {
      if f in s.fieldEscaped {
        var x :| FieldGoesAt(p, v, f, x);
      } else if f in o.fieldEscaped {
        var x :| FieldGoesAt(p, w, f, x);
        assert FieldGoesAt(p, v, f, x);
      } else {
        var x :| Leads(p, true, w, x, {}) && CalledAt(p, x, f);
        assert FieldGoesAt(p, v, f, x);
      }
    }
  }

  /****** Escaping fields, exactly ******/

  // No cycle of calls has an asynchronous one on it.
  ghost predicate NoAsyncCycle(p: Program) {
    forall v, w :: AsyncEdge(p, v, w) ==> !Leads(p, false, w, v, {})
  }

  lemma {:induction false} SyncLeads(p: Program, v: Var, path: seq<Var>, w: Var, x: Var)
    requires IsPath(p, true, v, path, w, {}) && x in path
    ensures Leads(p, false, v, x, {})
    decreases path
  {
    LeadsSelf(p, false, v);
    if x != v {
      assert path == [v] + path[1..];
      SyncLeads(p, path[1], path[1..], w, x);
      LeadsStep(p, false, v, path[1], x);
    }
  }

  // A path can be taken to meet no variable twice.
  lemma {:induction false} Shorten(p: Program, v: Var, path: seq<Var>, w: Var, avoid: set<Var>)
    returns (short: seq<Var>)
    requires IsPath(p, true, v, path, w, avoid)
    ensures IsPath(p, true, v, short, w, avoid) && Simple(short)
    decreases |path|
  {
    short := path;
    if |path| > 1 {
      var rest := Shorten(p, path[1], path[1..], w, avoid);
      if v in rest {
        short := Tail(p, path[1], rest, w, avoid, v);
      } else {
        SimpleCons(v, rest);
        short := [v] + rest;
        assert short[1..] == rest;
      }
    }
  }

  lemma {:induction false} Tail(p: Program, x: Var, path: seq<Var>, w: Var, avoid: set<Var>, v: Var)
    returns (tail: seq<Var>)
    requires IsPath(p, true, x, path, w, avoid) && v in path && Simple(path)
    ensures IsPath(p, true, v, tail, w, avoid) && Simple(tail)
    decreases path
  {
    tail := path;
    if x != v {
      assert path == [x] + path[1..];
      SimpleCons(x, path[1..]);
      tail := Tail(p, path[1], path[1..], w, avoid, v);
    }
  }

  // Coming back to v, an asynchronous path has its asynchronous call still ahead.
  lemma {:induction false} AsyncTail(p: Program, v: Var, x: Var, path: seq<Var>, w: Var) returns (tail: seq<Var>)
    requires NoAsyncCycle(p) && IsAsyncPath(p, x, path, w, {}) && v in path && Simple(path) && Leads(p, false, v, x, {})
    ensures IsAsyncPath(p, v, tail, w, {}) && Simple(tail)
    decreases path
  {
    hide AsyncEdge;
    tail := path;
    if x != v {
      var y, rest := path[1], path[1..];
      assert path == [x] + rest;
      SimpleCons(x, rest);
      if AsyncEdge(p, x, y) && IsPath(p, true, y, rest, w, {}) {
        SyncLeads(p, y, rest, w, v);
        LeadsTrans(p, y, v, x);
        assert false;
      }
      LeadsSelf(p, false, y);
      LeadsStep(p, false, x, y, y);
      LeadsTrans(p, v, x, y);
      tail := AsyncTail(p, v, y, rest, w);
    }
  }

  lemma LeadsTrans(p: Program, v: Var, x: Var, w: Var)
    requires Leads(p, false, v, x, {}) && Leads(p, false, x, w, {})
    ensures Leads(p, false, v, w, {})
  {
    var path :| IsPath(p, false, v, path, x, {});
    Onto(p, v, path, x, w);
  }

  lemma {:induction false} Onto(p: Program, v: Var, path: seq<Var>, x: Var, w: Var)
    requires IsPath(p, false, v, path, x, {}) && Leads(p, false, x, w, {})
    ensures Leads(p, false, v, w, {})
    decreases path
  {
    if |path| > 1 {
      Onto(p, path[1], path[1..], x, w);
      LeadsStep(p, false, v, path[1], w);
    }
  }

  lemma {:induction false} AsyncShorten(p: Program, v: Var, path: seq<Var>, w: Var)
    requires NoAsyncCycle(p) && IsAsyncPath(p, v, path, w, {})
    ensures AsyncSimply(p, v, w, {})
    decreases path
  {
    hide NoAsyncCycle, AsyncEdge;
    var x, rest := path[1], path[1..];
    if AsyncEdge(p, v, x) && IsPath(p, true, x, rest, w, {}) {
      var short := Shorten(p, x, rest, w, {});
      NotBack(p, v, x, short, w);
      SimpleCons(v, short);
      assert ([v] + short)[1..] == short;
      assert IsAsyncPath(p, v, [v] + short, w, {});
    } else {
      AsyncShorten(p, x, rest, w);
      var short :| IsAsyncPath(p, x, short, w, {}) && Simple(short);
      if v in short {
        LeadsSelf(p, false, x);
        LeadsStep(p, false, v, x, x);
        var tail := AsyncTail(p, v, x, short, w);
      } else {
        SimpleCons(v, short);
        assert ([v] + short)[1..] == short;
        assert IsAsyncPath(p, v, [v] + short, w, {});
      }
    }
  }

  lemma NotBack(p: Program, v: Var, x: Var, path: seq<Var>, w: Var)
    requires NoAsyncCycle(p) && AsyncEdge(p, v, x) && IsPath(p, true, x, path, w, {})
    ensures v !in path
  {
    if v in path { SyncLeads(p, x, path, w, v); }
  }

  // Unless a call cycle has an asynchronous call on it, the fields that escape are those that
  // do so somewhere, and those called by what an asynchronous call starts.
  lemma FieldsExactly(p: Program, s: Summary, v: Var, f: Field)
    requires Exact(p, s, v) && NoAsyncCycle(p)
    ensures f in s.fieldEscaped <==> exists w ::
      (Leads(p, false, v, w, {}) && FieldEscapesAt(p, w, f)) || (AsyncLeads(p, v, w) && CalledAt(p, w, f))
  {
    hide Leads, CalledAt, WaitedAt, EscapesAt, FieldEscapesAt, NoAsyncCycle, AsyncSimply, IsAsyncPath;
    if f in s.fieldEscaped { var w :| FieldGoesAt(p, v, f, w); }
    forall w | AsyncLeads(p, v, w) ensures AsyncSimply(p, v, w, {}) {
      var path :| IsAsyncPath(p, v, path, w, {});
      AsyncShorten(p, v, path, w);
    }
  }

  /****** Calls too deep to follow ******/

  // A path of calls through new variables that is one too long for what the stack leaves room.
  ghost predicate Deep(p: Program, v: Var, stack: seq<Var>) {
    exists path :: IsDeep(p, v, path, stack)
  }

  ghost predicate IsDeep(p: Program, v: Var, path: seq<Var>, stack: seq<Var>) {
    && |path| + |stack| == 17 && path != [] && Simple(path)
    && IsPath(p, false, v, path, path[|path| - 1], From(stack, 0))
  }

  lemma DeepHere(p: Program, v: Var, stack: seq<Var>)
    requires |stack| == MAX_DEPTH && v !in stack
    ensures Deep(p, v, stack)
  {
    assert stack[0..] == stack;
    assert IsDeep(p, v, [v], stack);
  }

  lemma {:induction false} AvoidsIn(p: Program, v: Var, path: seq<Var>, w: Var, avoid: set<Var>)
    requires IsPath(p, false, v, path, w, avoid)
    ensures forall x :: x in path ==> x !in avoid
    decreases path
  {
    if |path| > 1 {
      assert path == [v] + path[1..];
      AvoidsIn(p, path[1], path[1..], w, avoid);
    }
  }

  lemma DeepStep(p: Program, v: Var, w: Var, below: seq<Var>)
    requires Edge(p, false, v, w) && Deep(p, w, below + [v]) && v !in below
    ensures Deep(p, v, below)
  {
    var path :| IsDeep(p, w, path, below + [v]);
    var last, more := path[|path| - 1], [v] + path;
    AvoidsIn(p, w, path, last, From(below + [v], 0));
    assert (below + [v])[0..] == below + [v] && below[0..] == below;
    assert v in below + [v] && forall x :: x in below ==> x in below + [v];
    AvoidLess(p, false, w, path, last, From(below + [v], 0), From(below, 0));
    SimpleCons(v, path);
    assert more[1..] == path && more[|more| - 1] == last;
    assert IsDeep(p, v, more, below);
  }

  /****** The memoised summaries ******/

  class Summaries {
    const p: Program
    var cache: map<Var, Summary>
    var stack: seq<Var>

    constructor (p: Program)
      requires InRange(p)
      ensures this.p == p && Valid() && stack == []
    {
      this.p, cache, stack := p, map[], [];
    }

    // Whatever is stored is exact.
    ghost predicate Valid()
      reads this
    {
      InRange(p) && |stack| <= MAX_DEPTH && forall v :: v in cache ==> v < |p.uses| && Exact(p, cache[v], v)
    }

    // handleSummaryOf: a summary with the lowest stack position a cut below it reached.  With
    // no such position, the summary is exact; otherwise it covers everything that is reached
    // without passing the part of the stack from there on.  Past the depth bound, there is no
    // answer and no frame stores one.
    method HandleSummaryOf(self: Option<Var>) returns (sum: Summary, low: int, ok: bool)
      requires Valid() && (self.Some? ==> self.value < |p.uses|)
      modifies this`cache, this`stack
      ensures Valid() && stack == old(stack)
      ensures forall v :: v in old(cache) ==> v in cache && cache[v] == old(cache)[v]
      ensures -1 <= low && (low == -1 || low < |stack| || low == NO_CYCLE)
      ensures self.None? ==> !ok && low == NO_CYCLE
      ensures self.Some? && !ok ==> low == -1 && |stack| == 16
      ensures ok && stack == [] ==>
        forall w :: Leads(p, false, self.value, w, {}) && EscapesAt(p, w) ==> sum.escapes
      ensures ok && low == -1 ==> sum.escapes && GroundedFields(p, sum, self.value)
      ensures self.Some? && low == -1 ==> Deep(p, self.value, stack)
      ensures self.Some? && low >= 0 ==> ok && Grounded(p, sum, self.value)
      ensures self.Some? && low >= 0 ==>
        CoversSync(p, sum, self.value, From(stack, low)) && CoversAll(p, sum, self.value, From(stack, low))
      ensures self.Some? && low == NO_CYCLE ==> Exact(p, sum, self.value)
      ensures self.Some? && low == -1 ==> self.value !in cache
      ensures forall x :: x in cache && x in stack ==> x in old(cache)
      decreases MAX_DEPTH - |stack|, 1
    {
      hide Exact, CoversSync, CoversAll, Grounded, GroundedFields, Deep;
      if self.None? { return EMPTY, NO_CYCLE, false; }
      var v := self.value;
      if v in cache {
        ExactCovers(p, cache[v], v, From(stack, NO_CYCLE));
        NoneMissed(p, cache[v], v, From(stack, NO_CYCLE));
        return cache[v], NO_CYCLE, true;
      }
      for i := 0 to |stack|
        invariant forall j :: 0 <= j < i ==> stack[j] != v
      {
        if stack[i] == v {
          CutCovers(p, stack, i, v);
          return EMPTY, i, true;
        }
      }
      if |stack| >= MAX_DEPTH {
        DeepHere(p, v, stack);
        return EMPTY, -1, false;
      }
      var index := |stack|;
      stack := stack + [v];
      assert v == stack[index] && v in stack && forall x :: x in stack[..index] ==> x in stack;
      sum, low := WalkReceiverUses(v, index);
      stack := stack[..index];
      ok := true;
      if low >= index {
        assert From(stack, low) == {};
        NoneMissed(p, sum, v, From(stack, low));
        CoversIsExact(p, sum, v);
        cache := cache[v := sum];
        low := NO_CYCLE;
      }
    }

    // walkReceiverUses, for the variable on top of the stack.
    method WalkReceiverUses(v: Var, ghost index: nat) returns (sum: Summary, lowest: int)
      requires Valid() && |stack| == index + 1 && stack[index] == v && v < |p.uses| && v !in stack[..index]
      modifies this`cache, this`stack
      ensures Valid() && stack == old(stack)
      ensures forall x :: x in old(cache) ==> x in cache && cache[x] == old(cache)[x]
      ensures forall x :: x in cache && x in stack ==> x in old(cache)
      ensures -1 <= lowest && (lowest <= index || lowest == NO_CYCLE)
      ensures lowest == -1 ==> sum.escapes && Deep(p, v, stack[..index])
      ensures GroundedFields(p, sum, v) && (lowest >= 0 ==> Grounded(p, sum, v))
      ensures lowest >= 0 ==>
        CoversSync(p, sum, v, From(stack[..index], lowest)) && CoversAll(p, sum, v, From(stack[..index], lowest))
      decreases MAX_DEPTH - |stack|, 2
    {
      hide Exact, CoversSync, CoversAll, GroundedFields, Walked, Edge, From, Deep;
      sum, lowest := EMPTY, NO_CYCLE;
      ghost var below := stack[..index];
      var uses := p.uses[v];
      WalkBegins(p, v, From(below, lowest));
      for k := 0 to |uses|
        invariant Valid() && stack == old(stack)
        invariant forall x :: x in old(cache) ==> x in cache && cache[x] == old(cache)[x]
        invariant forall x :: x in cache && x in stack ==> x in old(cache)
        invariant -1 <= lowest && (lowest <= index || lowest == NO_CYCLE)
        invariant lowest == -1 ==> sum.escapes && Deep(p, v, below)
        invariant GroundedFields(p, sum, v)
        invariant lowest >= 0 ==> Grounded(p, sum, v) && Walked(p, sum, v, k, From(below, lowest))
      {
        var u := uses[k];
        ghost var s0, low0 := sum, lowest;
        match u
        case Here(facts) =>
          sum := Merge(sum, facts);
          HereKeeps(p, s0, v, k);
          if lowest >= 0 { HereWalks(p, s0, v, k, From(below, lowest)); }
        case Call(target, async) =>
          TargetInRange(p, v, k);
          var calleeSum, low, ok := HandleSummaryOf(target);
          if !ok { sum := sum.(escapes := true); } else { sum := MergeInvocation(sum, calleeSum, async); }
          if low < lowest { lowest := low; }
          assert stack == below + [v];
          CallKeeps(p, s0, v, k, calleeSum, ok);
          if low == -1 { DeepCall(p, v, k, below); }
          if lowest >= 0 {
            if target.None? { NowhereWalks(p, s0, v, k, From(below, low0)); }
            else { CallWalks(p, s0, v, k, calleeSum, below, low, low0); }
          }
      }
      if lowest >= 0 {
        WalkedCoversSync(p, sum, v, From(below, lowest));
        WalkedCoversAll(p, sum, v, From(below, lowest));
      }
    }
  }

  lemma NoneMissed(p: Program, s: Summary, v: Var, avoid: set<Var>)
    requires CoversAll(p, s, v, avoid) && avoid == {}
    ensures forall w :: Leads(p, false, v, w, {}) && EscapesAt(p, w) ==> s.escapes
  {
    hide Leads, EscapesAt;
  }

  lemma CutCovers(p: Program, stack: seq<Var>, i: nat, v: Var)
    requires i < |stack| && stack[i] == v
    ensures CoversSync(p, EMPTY, v, From(stack, i)) && CoversAll(p, EMPTY, v, From(stack, i)) && Grounded(p, EMPTY, v)
  {
    assert stack[i..][0] == v;
  }

  lemma WalkBegins(p: Program, v: Var, avoid: set<Var>)
    requires v < |p.uses|
    ensures Grounded(p, EMPTY, v) && Walked(p, EMPTY, v, 0, avoid)
  {}

  lemma TargetInRange(p: Program, v: Var, k: nat)
    requires InRange(p) && v < |p.uses| && k < |p.uses[v]| && p.uses[v][k].Call?
    ensures p.uses[v][k].target.Some? ==> p.uses[v][k].target.value < |p.uses|
  {}

  lemma HereKeeps(p: Program, s: Summary, v: Var, k: nat)
    requires v < |p.uses| && k < |p.uses[v]| && p.uses[v][k].Here? && GroundedFields(p, s, v)
    ensures GroundedFields(p, Merge(s, p.uses[v][k].facts), v)
  {
    hide GroundedFields;
    GroundedHere(p, s, v, p.uses[v][k]);
  }

  lemma CallKeeps(p: Program, s: Summary, v: Var, k: nat, o: Summary, ok: bool)
    requires v < |p.uses| && k < |p.uses[v]| && p.uses[v][k].Call? && GroundedFields(p, s, v)
    requires ok ==> p.uses[v][k].target.Some? && GroundedFields(p, o, p.uses[v][k].target.value)
    ensures var t := if ok then MergeInvocation(s, o, p.uses[v][k].async) else s.(escapes := true);
      GroundedFields(p, t, v)
  {
    if ok {
      hide GroundedFields;
      assert p.uses[v][k] in p.uses[v];
      GroundedCall(p, s, v, p.uses[v][k].target.value, o, p.uses[v][k].async);
    }
  }

  lemma DeepCall(p: Program, v: Var, k: nat, below: seq<Var>)
    requires v < |p.uses| && k < |p.uses[v]| && p.uses[v][k].Call? && p.uses[v][k].target.Some? && v !in below
    requires Deep(p, p.uses[v][k].target.value, below + [v])
    ensures Deep(p, v, below)
  {
    hide Deep;
    assert p.uses[v][k] in p.uses[v];
    DeepStep(p, v, p.uses[v][k].target.value, below);
  }

  lemma HereWalks(p: Program, s: Summary, v: Var, k: nat, avoid: set<Var>)
    requires v < |p.uses| && k < |p.uses[v]| && p.uses[v][k].Here? && Walked(p, s, v, k, avoid) && Grounded(p, s, v)
    ensures var t := Merge(s, p.uses[v][k].facts); Walked(p, t, v, k + 1, avoid) && Grounded(p, t, v)
  {
    hide GroundedFields, CoversSync, CoversAll, CoversStart;
    var u := p.uses[v][k];
    GroundedHere(p, s, v, u);
    WalkedMore(p, s, Merge(s, u.facts), v, k, avoid, avoid);
    assert p.uses[v][..k + 1] == p.uses[v][..k] + [u];
  }

  lemma NowhereWalks(p: Program, s: Summary, v: Var, k: nat, avoid: set<Var>)
    requires v < |p.uses| && k < |p.uses[v]| && p.uses[v][k].Call? && p.uses[v][k].target.None?
    requires Walked(p, s, v, k, avoid) && Grounded(p, s, v)
    ensures var t := s.(escapes := true); Walked(p, t, v, k + 1, avoid) && Grounded(p, t, v)
  {
    hide GroundedFields, CoversSync, CoversAll, CoversStart;
    var u := p.uses[v][k];
    GroundedHere(p, s, v, u);
    WalkedMore(p, s, s.(escapes := true), v, k, avoid, avoid);
    assert p.uses[v][..k + 1] == p.uses[v][..k] + [u];
  }

  lemma CallWalks(p: Program, s: Summary, v: Var, k: nat, o: Summary, below: seq<Var>, low: int, low0: int)
    requires v < |p.uses| && k < |p.uses[v]| && p.uses[v][k].Call? && p.uses[v][k].target.Some? && low >= 0 && low0 >= 0
    requires Walked(p, s, v, k, From(below, low0)) && Grounded(p, s, v)
    requires var w := p.uses[v][k].target.value;
      Grounded(p, o, w) && CoversSync(p, o, w, From(below + [v], low)) && CoversAll(p, o, w, From(below + [v], low))
    ensures var t, avoid := MergeInvocation(s, o, p.uses[v][k].async), From(below, if low < low0 then low else low0);
      Walked(p, t, v, k + 1, avoid) && Grounded(p, t, v)
  {
    hide CoversSync, CoversAll, CoversStart, From, GroundedFields;
    var u := p.uses[v][k];
    var w, lowest := u.target.value, if low < low0 then low else low0;
    var t, avoid := MergeInvocation(s, o, u.async), From(below, lowest);
    assert u in p.uses[v];
    GroundedCall(p, s, v, w, o, u.async);
    FromMono(below, lowest, low, v);
    FromMono(below, lowest, low0, v);
    WalkedMore(p, s, t, v, k, From(below, low0), avoid);
    CoversCall(p, s, o, w, From(below + [v], low), avoid + {v}, u.async);
    assert p.uses[v][..k + 1] == p.uses[v][..k] + [u];
  }

  lemma CoversCall(p: Program, s: Summary, o: Summary, w: Var, a: set<Var>, b: set<Var>, async: bool)
    requires CoversSync(p, o, w, a) && CoversAll(p, o, w, a) && a <= b
    ensures CoversAll(p, MergeInvocation(s, o, async), w, b)
    ensures !async ==> CoversSync(p, MergeInvocation(s, o, async), w, b)
    ensures async ==> CoversStart(p, MergeInvocation(s, o, async), w, b)
  {
    hide Leads, AsyncSimply;
    var t := MergeInvocation(s, o, async);
    if !async {
      CoversMore(p, o, t, w, a, b);
    } else {
      forall sync, x | Leads(p, sync, w, x, b) ensures Leads(p, sync, w, x, a) { AvoidNone(p, sync, w, x, b, a); }
      forall x | AsyncSimply(p, w, x, b) ensures AsyncSimply(p, w, x, a) { AsyncAvoidNone(p, w, x, b, a); }
    }
  }

  /****** One asynchronous call ******/

  // go f(h), where f calls the handle's field 7.
  const STARTED := Program([[Call(Some(1), true)], [Here(Summary({7}, {}, {}, false))]])

  lemma StartedEdges(v: Var, w: Var)
    ensures !Edge(STARTED, true, v, w)
    ensures Edge(STARTED, false, v, w) <==> v == 0 && w == 1
    ensures AsyncEdge(STARTED, v, w) <==> v == 0 && w == 1
  {
    assert STARTED.uses[0] == [Call(Some(1), true)];
    assert Call(Some(1), true) in STARTED.uses[0];
  }

  lemma StartedPath(sync: bool, v: Var, path: seq<Var>, w: Var, avoid: set<Var>)
    requires IsPath(STARTED, sync, v, path, w, avoid)
    ensures (path == [v] && v == w) || (!sync && path == [0, 1] && v == 0 && w == 1)
  {
    hide Edge;
    if |path| > 1 {
      StartedEdges(v, path[1]);
      if |path| > 2 { StartedEdges(path[1], path[2]); }
    }
  }

  lemma StartedLeads(w: Var)
    ensures Leads(STARTED, true, 0, w, {}) <==> w == 0
    ensures Leads(STARTED, false, 0, w, {}) <==> w == 0 || w == 1
    ensures AsyncLeads(STARTED, 0, w) <==> w == 1
  {
    hide Edge, AsyncEdge, IsPath;
    StartedEdges(0, 1);
    LeadsSelf(STARTED, true, 0);
    LeadsSelf(STARTED, false, 0);
    LeadsSelf(STARTED, true, 1);
    LeadsSelf(STARTED, false, 1);
    LeadsStep(STARTED, false, 0, 1, 1);
    AsyncLeadsStep(STARTED, 0, 1, 1);
    if path :| IsPath(STARTED, true, 0, path, w, {}) { StartedPath(true, 0, path, w, {}); }
    if path :| IsPath(STARTED, false, 0, path, w, {}) { StartedPath(false, 0, path, w, {}); }
    if path :| IsAsyncPath(STARTED, 0, path, w, {}) { StartedAsync(path, w); }
  }

  lemma StartedAsync(path: seq<Var>, w: Var)
    requires IsAsyncPath(STARTED, 0, path, w, {})
    ensures w == 1
  {
    hide Edge, AsyncEdge, IsPath;
    StartedEdges(0, path[1]);
    if AsyncEdge(STARTED, 0, path[1]) && IsPath(STARTED, true, path[1], path[1..], w, {}) {
      StartedPath(true, path[1], path[1..], w, {});
    } else {
      StartedEdges(path[1], path[1..][1]);
    }
  }

  lemma StartedCycle()
    ensures NoAsyncCycle(STARTED) && InRange(STARTED)
  {
    hide Edge, AsyncEdge, IsPath;
    forall v, w | AsyncEdge(STARTED, v, w) ensures !Leads(STARTED, false, w, v, {}) {
      StartedEdges(v, w);
      if path :| IsPath(STARTED, false, w, path, v, {}) { StartedPath(false, w, path, v, {}); }
    }
  }

  lemma StartedShallow()
    ensures !Deep(STARTED, 0, [])
  {
    hide IsPath;
    if path :| IsDeep(STARTED, 0, path, []) {
      StartedPath(false, 0, path, path[|path| - 1], From([], 0));
    }
  }

  lemma StartedFacts(f: Field)
    ensures CalledAt(STARTED, 1, f) <==> f == 7
    ensures !CalledAt(STARTED, 0, f) && !WaitedAt(STARTED, 0, f)
    ensures forall v :: !FieldEscapesAt(STARTED, v, f) && !EscapesAt(STARTED, v)
  {
    assert STARTED.uses[0] == [Call(Some(1), true)] && STARTED.uses[1] == [Here(Summary({7}, {}, {}, false))];
    assert Here(Summary({7}, {}, {}, false)) in STARTED.uses[1];
  }

  // The field is not called before the caller goes on, so it counts as escaping; nothing else.
  method StartedCall() returns (sum: Summary)
    ensures sum == Summary({}, {}, {7}, false)
  {
    hide Exact, Leads, AsyncLeads, CalledAt, WaitedAt, FieldEscapesAt, EscapesAt, Deep, NoAsyncCycle, InRange,
      CoversSync, CoversAll, Grounded, GroundedFields;
    StartedCycle();
    StartedShallow();
    var h := new Summaries(STARTED);
    var low, ok;
    sum, low, ok := h.HandleSummaryOf(Some(0));
    StartedExact(sum);
  }

  lemma StartedExact(s: Summary)
    requires Exact(STARTED, s, 0)
    ensures s == Summary({}, {}, {7}, false)
  {
    hide Leads, AsyncLeads, CalledAt, WaitedAt, FieldEscapesAt, EscapesAt, NoAsyncCycle;
    StartedCycle();
    forall w ensures Leads(STARTED, true, 0, w, {}) <==> w == 0
      ensures Leads(STARTED, false, 0, w, {}) <==> w == 0 || w == 1
      ensures AsyncLeads(STARTED, 0, w) <==> w == 1
    {
      StartedLeads(w);
    }
    StartedFacts(0);
    forall f ensures f !in s.called && f !in s.waited && (f in s.fieldEscaped <==> f == 7) {
      StartedFacts(f);
      FieldsExactly(STARTED, s, 0, f);
    }
    assert s.fieldEscaped == {7};
  }
}
