/**
 Strongly connected components by Tarjan's algorithm.

 The finder keeps the arrays and the stack of the recursive closure it models.  The
 invariant is stated on a snapshot of them together with the set of gray blocks, those
 whose call is still in progress.
 */
module Components {
  import opened Graph

  datatype Snapshot = Snapshot(index: seq<int>, stack: seq<BlockId>, onStack: seq<bool>, result: seq<seq<BlockId>>,
    counter: int)

  ghost predicate R(g: CFG, x: BlockId, y: BlockId) {
    Reach(g, Any, x, y)
  }

  ghost predicate Mutual(g: CFG, x: BlockId, y: BlockId) {
    R(g, x, y) && R(g, y, x)
  }

  ghost predicate Visited(s: Snapshot, v: BlockId) {
    v < |s.index| && s.index[v] >= 0
  }

  ghost predicate Emitted(s: Snapshot, v: BlockId) {
    Visited(s, v) && v !in s.stack
  }

  // e is an edge of g out of x.
  ghost predicate Out(g: CFG, x: BlockId, e: Edge) {
    x < |g.blocks| && e in g.blocks[x].succs
  }

  ghost predicate NoRepeats<T>(s: seq<T>) {
    forall i, j :: 0 <= i < j < |s| ==> s[i] != s[j]
  }

  /****** What the answer means ******/

  // The components are disjoint, each lists its blocks once, and each is a whole class of
  // mutually reachable blocks.
  ghost predicate AreClasses(g: CFG, cs: seq<seq<BlockId>>) {
    && (forall k :: 0 <= k < |cs| ==> cs[k] != [] && NoRepeats(cs[k]))
    && (forall k, v :: 0 <= k < |cs| && v in cs[k] ==> v < |g.blocks|)
    && (forall k, v, w :: 0 <= k < |cs| && v in cs[k] && 0 <= w < |g.blocks| ==> (w in cs[k] <==> Mutual(g, v, w)))
    && (forall k, l, v :: 0 <= k < l < |cs| ==> !(v in cs[k] && v in cs[l]))
  }

  // An edge out of a component stays in it or enters one emitted earlier.
  ghost predicate EdgesGoBack(g: CFG, cs: seq<seq<BlockId>>) {
    forall k, v, e :: 0 <= k < |cs| && v in cs[k] && Out(g, v, e) ==> InPrefix(cs, k + 1, e.to)
  }

  ghost predicate InPrefix(cs: seq<seq<BlockId>>, k: nat, v: BlockId) {
    exists l :: 0 <= l < k && l < |cs| && v in cs[l]
  }

  ghost predicate Covers(g: CFG, cs: seq<seq<BlockId>>) {
    forall v: nat :: v < |g.blocks| ==> InPrefix(cs, |cs|, v)
  }

  // Components come out in reverse topological order: whatever a component reaches was
  // emitted no later than it.
  lemma {:induction false} ReverseTopological(g: CFG, cs: seq<seq<BlockId>>, k: nat, v: BlockId, es: seq<Edge>,
      w: BlockId, l: nat)
    requires AreClasses(g, cs) && EdgesGoBack(g, cs)
    requires k < |cs| && v in cs[k] && l < |cs| && w in cs[l] && IsWalk(g, Any, v, es, w)
    ensures l <= k
    decreases es
  {
    if es == [] {
    } else {
      assert Out(g, v, es[0]);
      var m :| 0 <= m < k + 1 && m < |cs| && es[0].to in cs[m];
      ReverseTopological(g, cs, m, es[0].to, es[1..], w, l);
    }
  }

  /****** The invariant ******/

  ghost predicate Shape(g: CFG, s: Snapshot) {
    && |s.index| == |s.onStack| == |g.blocks|
    && 0 <= s.counter
    && (forall v :: 0 <= v < |s.index| ==> -1 <= s.index[v] < s.counter)
    && (forall i :: 0 <= i < |s.stack| ==> Visited(s, s.stack[i]))
    && (forall i, j :: 0 <= i < j < |s.stack| ==> s.index[s.stack[i]] < s.index[s.stack[j]])
    && (forall v: nat :: v < |s.onStack| ==> (s.onStack[v] <==> v in s.stack))
  }

  ghost predicate Done(g: CFG, s: Snapshot) {
    && AreClasses(g, s.result) && EdgesGoBack(g, s.result)
    && (forall v :: Emitted(s, v) <==> InPrefix(s.result, |s.result|, v))
  }

  // Every block that is on the stack reaches a gray one pushed no later than it.
  ghost predicate Anchored(g: CFG, s: Snapshot, gray: set<BlockId>) {
    forall x :: x in s.stack ==> HasAnchor(g, s, gray, x)
  }

  ghost predicate HasAnchor(g: CFG, s: Snapshot, gray: set<BlockId>, x: BlockId) {
    exists y :: Anchor(g, s, gray, x, y)
  }

  lemma AnchorOf(g: CFG, s: Snapshot, gray: set<BlockId>, x: BlockId) returns (y: BlockId)
    requires HasAnchor(g, s, gray, x)
    ensures Anchor(g, s, gray, x, y)
  {
    y :| Anchor(g, s, gray, x, y);
  }

  lemma AnchoredBy(g: CFG, s: Snapshot, gray: set<BlockId>, x: BlockId, y: BlockId)
    requires Anchor(g, s, gray, x, y)
    ensures HasAnchor(g, s, gray, x)
  {}

  ghost predicate Anchor(g: CFG, s: Snapshot, gray: set<BlockId>, x: BlockId, y: BlockId) {
    y in gray && Visited(s, y) && Visited(s, x) && s.index[y] <= s.index[x] && R(g, x, y)
  }

  // A gray block reaches everything pushed after it.
  ghost predicate GraysReach(g: CFG, s: Snapshot, gray: set<BlockId>) {
    forall x, y :: x in gray && y in s.stack && Visited(s, x) && Visited(s, y) && s.index[x] <= s.index[y] ==>
      R(g, x, y)
  }

  ghost predicate NoWhiteSuccessor(g: CFG, s: Snapshot, gray: set<BlockId>) {
    forall v, e :: Visited(s, v) && v !in gray && Out(g, v, e) ==> Visited(s, e.to)
  }

  ghost predicate Inv(g: CFG, s: Snapshot, gray: set<BlockId>) {
    && EdgesInRange(g.blocks)
    && Shape(g, s) && Done(g, s)
    && (forall v :: v in gray ==> v in s.stack)
    && NoWhiteSuccessor(g, s, gray)
    && Anchored(g, s, gray)
    && GraysReach(g, s, gray)
  }

  // What a call leaves of the state it found.
  ghost predicate Grows(s: Snapshot, t: Snapshot) {
    && |s.index| == |t.index|
    && s.counter <= t.counter
    && s.stack <= t.stack
    && (forall v: nat :: Visited(s, v) ==> t.index[v] == s.index[v])
    && (forall v: nat :: Visited(t, v) && !Visited(s, v) ==> s.counter <= t.index[v])
    && (forall v: nat :: Emitted(s, v) ==> Emitted(t, v))
  }

  // On the stack, and pushed at time c or later; on the stack, and pushed before time c.
  ghost predicate From(s: Snapshot, c: int, x: BlockId) {
    x in s.stack && Visited(s, x) && c <= s.index[x]
  }

  ghost predicate Under(s: Snapshot, c: int, x: BlockId) {
    x in s.stack && Visited(s, x) && s.index[x] < c
  }

  // No edge from the part of the stack pushed since c enters the part under it at an index
  // below m; the edges of block v are not yet counted.
  ghost predicate Bound(g: CFG, s: Snapshot, c: int, v: BlockId, m: int) {
    forall x, e :: From(s, c, x) && x != v && Out(g, x, e) && Under(s, c, e.to) ==> m <= s.index[e.to]
  }

  // The same for the first i edges of v itself, all of which are explored.
  ghost predicate Explored(g: CFG, s: Snapshot, c: int, v: BlockId, i: nat, m: int) {
    v < |g.blocks| && i <= |g.blocks[v].succs| &&
    forall k :: 0 <= k < i ==>
      var w := g.blocks[v].succs[k].to;
      Visited(s, w) && (Under(s, c, w) ==> m <= s.index[w])
  }

  // v reaches y, which was pushed before c, at time m.
  ghost predicate Witness(g: CFG, s: Snapshot, c: int, v: BlockId, m: int, y: BlockId) {
    Under(s, c, y) && s.index[y] == m && R(g, v, y)
  }

  /****** Reachability laws, used with the definition of R hidden ******/

  lemma RRefl(g: CFG, x: BlockId)
    requires x < |g.blocks|
    ensures R(g, x, x)
  {
    ReachRefl(g, Any, x);
  }

  lemma REdge(g: CFG, x: BlockId, e: Edge)
    requires EdgesInRange(g.blocks) && Out(g, x, e)
    ensures R(g, x, e.to)
  {
    ReachEdge(g, Any, x, e);
  }

  lemma RTrans(g: CFG, x: BlockId, y: BlockId, z: BlockId)
    requires R(g, x, y) && R(g, y, z)
    ensures R(g, x, z)
  {
    ReachTrans(g, Any, x, y, z);
  }

  lemma RCrosses(g: CFG, S: set<BlockId>, a: BlockId, b: BlockId) returns (x: BlockId, e: Edge)
    requires R(g, a, b) && a in S && b !in S
    ensures x in S && e.to !in S && Out(g, x, e) && R(g, a, x) && R(g, e.to, b)
  {
    var es :| IsWalk(g, Any, a, es, b);
    x, e := CrossingEdge(g, Any, S, a, es, b);
  }

  /****** Steps of the algorithm on snapshots ******/

  ghost function Push(s: Snapshot, v: BlockId): Snapshot
    requires v < |s.index| && v < |s.onStack|
  {
    s.(index := s.index[v := s.counter], counter := s.counter + 1, stack := s.stack + [v],
      onStack := s.onStack[v := true])
  }

  lemma PushKeeps(g: CFG, s: Snapshot, gray: set<BlockId>, v: BlockId)
    requires Inv(g, s, gray) && v < |g.blocks| && !Visited(s, v)
    requires forall x :: x in gray ==> R(g, x, v)
    ensures Inv(g, Push(s, v), gray + {v})
    ensures Grows(s, Push(s, v))
  {
    hide R, AreClasses, EdgesGoBack, HasAnchor, InPrefix;
    var t := Push(s, v);
    assert Done(g, t) by {
      forall x ensures Emitted(t, x) <==> Emitted(s, x) {}
    }
    RRefl(g, v);
    AnchoredBy(g, t, gray + {v}, v, v);
    forall x | x in t.stack ensures HasAnchor(g, t, gray + {v}, x) {
      if x != v {
        var y := AnchorOf(g, s, gray, x);
        AnchoredBy(g, t, gray + {v}, x, y);
      }
    }
  }

  lemma EmittedStaysOut(g: CFG, s: Snapshot, x: BlockId, y: BlockId)
    requires Done(g, s) && Emitted(s, x) && R(g, x, y)
    ensures Emitted(s, y)
  {
    var es :| IsWalk(g, Any, x, es, y);
    EmittedWalk(g, s, x, es, y);
  }

  lemma {:induction false} EmittedWalk(g: CFG, s: Snapshot, x: BlockId, es: seq<Edge>, y: BlockId)
    requires Done(g, s) && Emitted(s, x) && IsWalk(g, Any, x, es, y)
    ensures Emitted(s, y)
    decreases es
  {
    hide AreClasses;
    if es != [] {
      var k :| 0 <= k < |s.result| && x in s.result[k];
      assert Out(g, x, es[0]);
      assert InPrefix(s.result, k + 1, es[0].to);
      assert InPrefix(s.result, |s.result|, es[0].to);
      EmittedWalk(g, s, es[0].to, es[1..], y);
    }
  }

  // The situation in which v heads a finished component: all of its edges are explored, and
  // nothing pushed since v has an edge under v.
  ghost predicate Heads(g: CFG, s: Snapshot, gray: set<BlockId>, v: BlockId) {
    && Inv(g, s, gray + {v})
    && v in s.stack && Visited(s, v)
    && (forall x :: x in gray ==> Under(s, s.index[v], x))
    && (forall e :: Out(g, v, e) ==> Visited(s, e.to))
    && (forall x, e :: From(s, s.index[v], x) && Out(g, x, e) ==> !Under(s, s.index[v], e.to))
  }

  lemma SectionEdge(g: CFG, s: Snapshot, gray: set<BlockId>, v: BlockId, x: BlockId, e: Edge)
    requires Heads(g, s, gray, v) && From(s, s.index[v], x) && Out(g, x, e)
    ensures From(s, s.index[v], e.to) || Emitted(s, e.to)
  {
    hide R, Done, HasAnchor;
    assert Visited(s, e.to);
  }

  // A walk that leaves the section has left the stack for good.
  lemma SectionClosed(g: CFG, s: Snapshot, gray: set<BlockId>, v: BlockId, x: BlockId, y: BlockId)
    requires Heads(g, s, gray, v) && From(s, s.index[v], x) && R(g, x, y)
    ensures From(s, s.index[v], y) || Emitted(s, y)
  {
    hide R, Done, HasAnchor, GraysReach;
    var sec := set z | z in s.stack && From(s, s.index[v], z);
    if y !in sec {
      var a, e := RCrosses(g, sec, x, y);
      SectionEdge(g, s, gray, v, a, e);
      EmittedStaysOut(g, s, e.to, y);
    }
  }

  // Then what was pushed since v is exactly v's class.
  lemma SectionIsClass(g: CFG, s: Snapshot, gray: set<BlockId>, v: BlockId, w: BlockId)
    requires Heads(g, s, gray, v)
    ensures From(s, s.index[v], w) <==> Mutual(g, v, w)
  {
    hide R, Done, HasAnchor;
    if From(s, s.index[v], w) {
      var y := AnchorOf(g, s, gray + {v}, w);
      SectionClosed(g, s, gray, v, w, y);
      assert y == v;
    } else if Mutual(g, v, w) {
      SectionClosed(g, s, gray, v, v, w);
      EmittedStaysOut(g, s, w, v);
    }
  }

  // v reached something under itself: it stays on the stack, finished.
  lemma BlackenKeeps(g: CFG, s: Snapshot, gray: set<BlockId>, v: BlockId, m: int, y: BlockId)
    requires Inv(g, s, gray + {v}) && Visited(s, v)
    requires forall e :: Out(g, v, e) ==> Visited(s, e.to)
    requires Witness(g, s, s.index[v], v, m, y)
    ensures Inv(g, s, gray)
  {
    hide R, Done, HasAnchor;
    var z := AnchorOf(g, s, gray + {v}, y);
    RTrans(g, v, y, z);
    forall x | x in s.stack ensures HasAnchor(g, s, gray, x) {
      var a := AnchorOf(g, s, gray + {v}, x);
      if a == v {
        RTrans(g, x, v, z);
        AnchoredBy(g, s, gray, x, z);
      } else {
        AnchoredBy(g, s, gray, x, a);
      }
    }
  }

  // t is s with everything pushed since v moved from the stack into a new component.
  ghost predicate Popped(s: Snapshot, t: Snapshot, v: BlockId, scc: seq<BlockId>) {
    && Visited(s, v)
    && t.index == s.index && t.counter == s.counter && |t.onStack| == |s.onStack|
    && t.result == s.result + [scc] && NoRepeats(scc) && scc != []
    && (forall x :: x in scc <==> From(s, s.index[v], x))
    && (forall x :: x in t.stack <==> Under(s, s.index[v], x))
    && t.stack <= s.stack
    && (forall x: nat :: x < |t.onStack| ==> (t.onStack[x] <==> x in t.stack))
  }

  lemma EmitKeepsClasses(g: CFG, s: Snapshot, t: Snapshot, gray: set<BlockId>, v: BlockId, scc: seq<BlockId>)
    requires Heads(g, s, gray, v) && Popped(s, t, v, scc)
    ensures AreClasses(g, t.result)
  {
    hide R, HasAnchor, EdgesGoBack;
    forall x, w | x in scc && 0 <= w < |g.blocks| ensures w in scc <==> Mutual(g, x, w) {
      SectionIsClass(g, s, gray, v, x);
      SectionIsClass(g, s, gray, v, w);
      if w in scc { RTrans(g, x, v, w); RTrans(g, w, v, x); }
      if Mutual(g, x, w) { RTrans(g, v, x, w); RTrans(g, w, x, v); }
    }
    forall k, x | 0 <= k < |s.result| && x in s.result[k] ensures x !in scc {
      assert InPrefix(s.result, |s.result|, x);
    }
    forall k | 0 <= k < |t.result| ensures t.result[k] == if k < |s.result| then s.result[k] else scc {}
  }

  lemma EmitKeepsEdges(g: CFG, s: Snapshot, t: Snapshot, gray: set<BlockId>, v: BlockId, scc: seq<BlockId>)
    requires Heads(g, s, gray, v) && Popped(s, t, v, scc)
    ensures EdgesGoBack(g, t.result)
  {
    hide R, HasAnchor, AreClasses;
    var n := |s.result|;
    forall k, x, e | 0 <= k < |t.result| && x in t.result[k] && Out(g, x, e) ensures InPrefix(t.result, k + 1, e.to) {
      if k < n {
        assert InPrefix(s.result, k + 1, e.to);
        var l :| 0 <= l < k + 1 && l < n && e.to in s.result[l];
        assert t.result[l] == s.result[l];
      } else {
        SectionEdge(g, s, gray, v, x, e);
        if e.to in scc {
          assert e.to in t.result[n];
        } else {
          var l :| 0 <= l < n && e.to in s.result[l];
          assert t.result[l] == s.result[l];
        }
      }
    }
  }

  lemma EmitKeeps(g: CFG, s: Snapshot, t: Snapshot, gray: set<BlockId>, v: BlockId, scc: seq<BlockId>)
    requires Heads(g, s, gray, v) && Popped(s, t, v, scc)
    ensures Inv(g, t, gray)
  {
    hide R, HasAnchor, AreClasses, EdgesGoBack;
    EmitKeepsClasses(g, s, t, gray, v, scc);
    EmitKeepsEdges(g, s, t, gray, v, scc);
    forall x ensures Emitted(t, x) <==> InPrefix(t.result, |t.result|, x) {
      if x in scc {
        assert x in t.result[|s.result|];
      } else if InPrefix(s.result, |s.result|, x) {
        var l :| 0 <= l < |s.result| && x in s.result[l];
        assert x in t.result[l];
      }
    }
    forall x | x in t.stack ensures HasAnchor(g, t, gray, x) {
      var a := AnchorOf(g, s, gray + {v}, x);
      AnchoredBy(g, t, gray, x, a);
    }
    assert forall i :: 0 <= i < |t.stack| ==> t.stack[i] == s.stack[i];
  }

  /****** The algorithm ******/

  ghost function Unvisited(s: Snapshot): set<BlockId> {
    set v | v in Graph.Below(|s.index|) && !Visited(s, v)
  }

  lemma Shrinks(s: Snapshot, t: Snapshot, v: BlockId)
    requires Grows(s, t) && Visited(t, v) && !Visited(s, v)
    requires forall x: nat :: Visited(s, x) ==> s.index[x] >= 0
    ensures Unvisited(t) < Unvisited(s)
  {
    assert v in Unvisited(s) && v !in Unvisited(t);
  }

  // The loop of a call for v, pushed at time c, after i of its edges with low[v] == m.
  ghost predicate Progress(g: CFG, s: Snapshot, gray: set<BlockId>, v: BlockId, c: int, i: nat, m: int) {
    && Inv(g, s, gray + {v})
    && v in s.stack && Visited(s, v) && s.index[v] == c
    && m <= c && (m < c ==> exists y :: Witness(g, s, c, v, m, y))
    && Bound(g, s, c, v, m) && Explored(g, s, c, v, i, m)
  }

  // What a finished call for w promises, with s the state it found and l its low.
  ghost predicate Returned(g: CFG, s: Snapshot, t: Snapshot, w: BlockId, l: int) {
    && Grows(s, t) && Visited(t, w) && t.index[w] == s.counter
    && (w !in t.stack ==> t.stack == s.stack && l == t.index[w])
    && (w in t.stack ==> l < t.index[w] && exists y :: Witness(g, t, s.counter, w, l, y))
    && (forall x, e :: From(t, s.counter, x) && Out(g, x, e) && Under(t, s.counter, e.to) ==> l <= t.index[e.to])
  }

  lemma CallProgress(g: CFG, s: Snapshot, t: Snapshot, gray: set<BlockId>, v: BlockId, c: int, i: nat, m: int,
      w: BlockId, l: int)
    requires Progress(g, s, gray, v, c, i, m) && i < |g.blocks[v].succs| && w == g.blocks[v].succs[i].to
    requires Inv(g, t, gray + {v}) && Returned(g, s, t, w, l)
    ensures Progress(g, t, gray, v, c, i + 1, if l < m then l else m) && Grows(s, t)
  {
    hide R, Done, HasAnchor, NoWhiteSuccessor, GraysReach, Anchored, Bound;
    assert Out(g, v, g.blocks[v].succs[i]);
    REdge(g, v, g.blocks[v].succs[i]);
    if l < m {
      var y :| Witness(g, t, s.counter, w, l, y);
      RTrans(g, v, w, y);
      assert Witness(g, t, c, v, l, y);
    } else if m < c {
      var y :| Witness(g, s, c, v, m, y);
      assert Witness(g, t, c, v, m, y);
    }
    CallBound(g, s, t, gray, v, c, i, m, w, l);
  }

  // Edges of what was pushed before the call, or during it, respect the new bound.
  lemma CallBound(g: CFG, s: Snapshot, t: Snapshot, gray: set<BlockId>, v: BlockId, c: int, i: nat, m: int, w: BlockId,
      l: int)
    requires Progress(g, s, gray, v, c, i, m) && Inv(g, t, gray + {v}) && Returned(g, s, t, w, l)
    ensures Bound(g, t, c, v, if l < m then l else m)
  {
    hide R, Done, HasAnchor, NoWhiteSuccessor, GraysReach, Anchored, Explored;
    forall x, e | From(t, c, x) && x != v && Out(g, x, e) && Under(t, c, e.to)
      ensures (if l < m then l else m) <= t.index[e.to]
    {
      assert Under(s, c, e.to);
      if Visited(s, x) { assert !Emitted(s, x); assert From(s, c, x); } else { assert From(t, s.counter, x); }
    }
  }

  lemma EdgeProgress(g: CFG, s: Snapshot, gray: set<BlockId>, v: BlockId, c: int, i: nat, m: int, w: BlockId)
    requires Progress(g, s, gray, v, c, i, m) && i < |g.blocks[v].succs| && w == g.blocks[v].succs[i].to
    requires Visited(s, w)
    ensures Progress(g, s, gray, v, c, i + 1, if w in s.stack && s.index[w] < m then s.index[w] else m)
  {
    hide R, Done, HasAnchor, NoWhiteSuccessor, GraysReach, Anchored;
    assert Out(g, v, g.blocks[v].succs[i]);
    REdge(g, v, g.blocks[v].succs[i]);
    if w in s.stack && s.index[w] < m {
      assert Witness(g, s, c, v, s.index[w], w);
    }
  }

  lemma ProgressHeads(g: CFG, s: Snapshot, gray: set<BlockId>, v: BlockId, c: int)
    requires v < |g.blocks| && Progress(g, s, gray, v, c, |g.blocks[v].succs|, c)
    requires forall x :: x in gray ==> Under(s, c, x)
    ensures Heads(g, s, gray, v)
  {
    hide R, Done, HasAnchor, NoWhiteSuccessor, GraysReach, Anchored;
  }

  lemma PushProgress(g: CFG, s: Snapshot, gray: set<BlockId>, v: BlockId)
    requires Inv(g, s, gray) && v < |g.blocks| && !Visited(s, v)
    requires Inv(g, Push(s, v), gray + {v})
    ensures Progress(g, Push(s, v), gray, v, s.counter, 0, s.counter)
  {
    hide R, Done, HasAnchor, NoWhiteSuccessor, GraysReach, Anchored;
  }

  lemma GrayReaches(g: CFG, s: Snapshot, gray: set<BlockId>, v: BlockId, w: BlockId)
    requires GraysReach(g, s, gray + {v}) && v in s.stack && Visited(s, v) && R(g, v, w)
    requires forall x :: x in gray ==> Under(s, s.index[v], x)
    ensures forall x :: x in gray + {v} ==> R(g, x, w)
  {
    hide R;
    forall x | x in gray + {v} ensures R(g, x, w) {
      if x != v { RTrans(g, x, v, w); }
    }
  }

  lemma GrayUnder(g: CFG, s: Snapshot, t: Snapshot, gray: set<BlockId>)
    requires Inv(g, s, gray) && Grows(s, t)
    ensures forall x :: x in gray ==> Under(t, s.counter, x)
  {
    hide R, Done, HasAnchor, NoWhiteSuccessor, GraysReach, Anchored;
  }

  lemma FinishBlack(g: CFG, s: Snapshot, t: Snapshot, gray: set<BlockId>, v: BlockId, m: int)
    requires Grows(s, t) && !Visited(s, v)
    requires v < |g.blocks| && Progress(g, t, gray, v, s.counter, |g.blocks[v].succs|, m) && m < s.counter
    ensures Inv(g, t, gray) && Returned(g, s, t, v, m)
  {
    hide R, Done, HasAnchor, NoWhiteSuccessor, GraysReach, Anchored;
    var y :| Witness(g, t, s.counter, v, m, y);
    forall e | Out(g, v, e) ensures Visited(t, e.to) && (Under(t, s.counter, e.to) ==> m <= t.index[e.to]) {
      var k :| 0 <= k < |g.blocks[v].succs| && g.blocks[v].succs[k] == e;
    }
    BlackenKeeps(g, t, gray, v, m, y);
  }

  lemma FinishEmitted(g: CFG, s: Snapshot, t: Snapshot, u: Snapshot, v: BlockId, scc: seq<BlockId>, k: nat)
    requires Shape(g, s) && Shape(g, t) && Shape(g, u) && Done(g, t) && Done(g, u)
    requires Grows(s, t) && !Visited(s, v) && Visited(t, v) && t.index[v] == s.counter && v in t.stack
    requires k == |s.stack| && Popped(t, u, v, scc) && u.stack == t.stack[..k]
    ensures Returned(g, s, u, v, s.counter)
  {
    hide R, AreClasses, EdgesGoBack;
    forall x: nat | Emitted(s, x) ensures Emitted(u, x) {}
  }

  // What the loop body needs before it looks at edge i, and what holds after the loop.
  lemma ProgressBasics(g: CFG, s: Snapshot, t: Snapshot, gray: set<BlockId>, v: BlockId, c: int, i: nat, m: int)
    requires Inv(g, s, gray) && Grows(s, t) && s.counter == c && v < |g.blocks| && !Visited(s, v)
    requires Progress(g, t, gray, v, c, i, m) && i < |g.blocks[v].succs|
    ensures Shape(g, t) && Inv(g, t, gray + {v}) && Visited(t, v) && m <= c == t.index[v]
    ensures Unvisited(t) < Unvisited(s)
    ensures var w := g.blocks[v].succs[i].to;
      w < |g.blocks| && (w == v ==> Visited(t, w))
        && (!Visited(t, w) ==> !Visited(s, w) && forall x :: x in gray + {v} ==> R(g, x, w))
    ensures forall x: nat :: Visited(s, x) ==> Visited(t, x)
  {
    hide R, Done, HasAnchor, NoWhiteSuccessor, Anchored;
    assert Out(g, v, g.blocks[v].succs[i]);
    REdge(g, v, g.blocks[v].succs[i]);
    GrayUnder(g, s, t, gray);
    GrayReaches(g, t, gray, v, g.blocks[v].succs[i].to);
    Shrinks(s, t, v);
  }

  lemma ProgressEnds(g: CFG, s: Snapshot, t: Snapshot, gray: set<BlockId>, v: BlockId, c: int, m: int)
    requires Inv(g, s, gray) && Grows(s, t) && s.counter == c && v < |g.blocks| && !Visited(s, v)
    requires Progress(g, t, gray, v, c, |g.blocks[v].succs|, m)
    ensures Shape(g, s) && Shape(g, t) && Done(g, t) && Visited(t, v) && m <= c == t.index[v] && v in t.stack
    ensures m == c ==> Heads(g, t, gray, v)
    ensures |s.stack| < |t.stack| && t.stack[|s.stack|] == v
    ensures forall x: nat :: Visited(s, x) ==> x != v
  {
    hide R, Done, HasAnchor, NoWhiteSuccessor, Anchored, GraysReach;
    GrayUnder(g, s, t, gray);
    if m == c { ProgressHeads(g, t, gray, v, c); }
    var i :| 0 <= i < |t.stack| && t.stack[i] == v;
    var x := t.stack[|s.stack|];
    forall j | 0 <= j < |s.stack| ensures s.stack[j] != x {
      assert t.stack[j] == s.stack[j] && t.index[t.stack[j]] < t.index[x];
    }
    assert !Emitted(s, x);
  }

  lemma InvBasics(g: CFG, s: Snapshot, gray: set<BlockId>)
    requires Inv(g, s, gray)
    ensures Shape(g, s) && EdgesInRange(g.blocks) && GraysReach(g, s, gray) && Done(g, s)
  {}

  lemma GrowsBy(s: Snapshot, t: Snapshot, u: Snapshot)
    requires Grows(s, t) && Grows(t, u)
    ensures Grows(s, u)
  {}

  lemma ReversedMembers(stack: seq<BlockId>, k: nat, scc: seq<BlockId>)
    requires k < |stack| && |scc| == |stack| - k && forall j :: 0 <= j < |scc| ==> scc[j] == stack[|stack| - 1 - j]
    ensures forall x :: x in scc <==> x in stack[k..]
  {
    forall x ensures x in scc <==> x in stack[k..] {
      if x in stack[k..] {
        var i :| 0 <= i < |stack| - k && stack[k..][i] == x;
        assert scc[|stack| - 1 - k - i] == x;
      }
      if x in scc {
        var i :| 0 <= i < |scc| && scc[i] == x;
        assert stack[k..][|stack| - 1 - i - k] == x;
      }
    }
  }

  lemma PoppedBy(g: CFG, s: Snapshot, t: Snapshot, v: BlockId, k: nat, scc: seq<BlockId>)
    requires Shape(g, s) && k < |s.stack| && s.stack[k] == v
    requires t == s.(stack := s.stack[..k], result := s.result + [scc], onStack := t.onStack)
    requires |t.onStack| == |s.onStack| && forall x: nat :: x < |t.onStack| ==> (t.onStack[x] <==> x in t.stack)
    requires |scc| == |s.stack| - k && forall j :: 0 <= j < |scc| ==> scc[j] == s.stack[|s.stack| - 1 - j]
    ensures Popped(s, t, v, scc) && Shape(g, t)
  {
    StackSplits(g, s, k);
    ReversedMembers(s.stack, k, scc);
    assert NoRepeats(scc) by {
      forall i, j | 0 <= i < j < |scc| ensures scc[i] != scc[j] {
        assert s.index[s.stack[|s.stack| - 1 - j]] < s.index[s.stack[|s.stack| - 1 - i]];
      }
    }
  }

  lemma StackSplits(g: CFG, s: Snapshot, k: nat)
    requires Shape(g, s) && k < |s.stack|
    ensures forall x :: x in s.stack[..k] <==> Under(s, s.index[s.stack[k]], x)
    ensures forall x :: x in s.stack[k..] <==> From(s, s.index[s.stack[k]], x)
  {
    var c := s.index[s.stack[k]];
    assert forall i :: 0 <= i < k ==> s.index[s.stack[i]] < c;
    assert forall i :: k <= i < |s.stack| ==> c <= s.index[s.stack[i]];
    forall x ensures x in s.stack[..k] <==> Under(s, c, x) {
      if x in s.stack {
        var i :| 0 <= i < |s.stack| && s.stack[i] == x;
        assert i < k ==> s.stack[..k][i] == x;
      }
    }
    forall x ensures x in s.stack[k..] <==> From(s, c, x) {
      if x in s.stack {
        var i :| 0 <= i < |s.stack| && s.stack[i] == x;
        assert i >= k ==> s.stack[k..][i - k] == x;
      }
    }
  }

  class Finder {
    const g: CFG
    const index: array<int>
    const low: array<int>
    const onStack: array<bool>
    var stack: seq<BlockId>
    var result: seq<seq<BlockId>>
    var counter: int

    ghost predicate Wired() {
      && index.Length == low.Length == onStack.Length == |g.blocks|
      && index != low
    }

    ghost function Now(): Snapshot
      reads this, index, onStack
    {
      Snapshot(index[..], stack, onStack[..], result, counter)
    }

    constructor (g: CFG)
      requires EdgesInRange(g.blocks)
      ensures Wired() && fresh(index) && fresh(low) && fresh(onStack)
      ensures this.g == g && Inv(g, Now(), {})
      ensures stack == [] && result == [] && forall v: nat :: !Visited(Now(), v)
    {
      this.g := g;
      index := new int[|g.blocks|](_ => -1);
      low := new int[|g.blocks|];
      onStack := new bool[|g.blocks|](_ => false);
      stack, result, counter := [], [], 0;
    }

    // Explores everything v reaches that is not yet visited.  Afterwards v either heads a
    // component that was emitted, or stays on the stack with low[v] the earliest time it
    // can vouch for: v reaches a block pushed then, before v, and no edge of what was pushed
    // since enters an older block earlier.
    method StrongConnect(v: BlockId, ghost gray: set<BlockId>)
      requires Wired() && Inv(g, Now(), gray) && v < |g.blocks| && !Visited(Now(), v)
      requires forall x :: x in gray ==> R(g, x, v)
      modifies this, index, low, onStack
      ensures Inv(g, Now(), gray) && Returned(g, old(Now()), Now(), v, low[v])
      ensures forall x: nat :: Visited(old(Now()), x) ==> low[x] == old(low[x])
      decreases Unvisited(Now())
    {
      hide R, Inv, Done, GraysReach, Progress, Returned, Grows, Unvisited;
      ghost var s0 := Now();
      ghost var c := counter;
      InvBasics(g, s0, gray);
      PushKeeps(g, s0, gray, v);
      index[v] := counter;
      low[v] := counter;
      counter := counter + 1;
      stack := stack + [v];
      onStack[v] := true;
      assert Now() == Push(s0, v);
      PushProgress(g, s0, gray, v);

      var succs := g.blocks[v].succs;
      for i := 0 to |succs|
        invariant Progress(g, Now(), gray, v, c, i, low[v]) && Grows(s0, Now())
        invariant forall x: nat :: Visited(s0, x) ==> low[x] == old(low[x])
      {
        var w := succs[i].to;
        ghost var s2 := Now();
        ghost var m := low[v];
        ProgressBasics(g, s0, s2, gray, v, c, i, m);
        if index[w] == -1 {
          StrongConnect(w, gray + {v});
          ghost var s3 := Now();
          CallProgress(g, s2, s3, gray, v, c, i, m, w, low[w]);
          GrowsBy(s0, s2, s3);
          if low[w] < low[v] {
            low[v] := low[w];
          }
          assert Now() == s3;
        } else {
          EdgeProgress(g, s2, gray, v, c, i, m, w);
          if onStack[w] && index[w] < low[v] {
            low[v] := index[w];
          }
          assert Now() == s2;
        }
      }

      ghost var s3 := Now();
      ProgressEnds(g, s0, s3, gray, v, c, low[v]);
      if low[v] == index[v] {
        ghost var scc := Pop(v, |s0.stack|);
        EmitKeeps(g, s3, Now(), gray, v, scc);
        InvBasics(g, Now(), gray);
        FinishEmitted(g, s0, s3, Now(), v, scc, |s0.stack|);
      } else {
        FinishBlack(g, s0, s3, gray, v, low[v]);
      }
    }

    // Moves the stack from v up, which starts at position k, into a new component.
    method Pop(v: BlockId, ghost k: nat) returns (scc: seq<BlockId>)
      requires Wired() && Shape(g, Now()) && k < |stack| && stack[k] == v
      modifies this`stack, this`result, onStack
      ensures Popped(old(Now()), Now(), v, scc) && Shape(g, Now()) && stack == old(stack)[..k]
    {
      ghost var s := Now();
      scc := [];
      while true
        invariant k < |stack| <= |s.stack| && stack == s.stack[..|stack|]
        invariant |scc| == |s.stack| - |stack|
        invariant forall j :: 0 <= j < |scc| ==> scc[j] == s.stack[|s.stack| - 1 - j]
        invariant result == s.result
        invariant forall x: nat :: x < |s.index| ==> (onStack[x] <==> x in stack)
        decreases |stack|
      {
        var top := |stack| - 1;
        var w := stack[top];
        stack := stack[..top];
        onStack[w] := false;
        scc := scc + [w];
        if w == v { break; }
      }
      assert stack == s.stack[..k];
      result := result + [scc];
      PoppedBy(g, s, Now(), v, k, scc);
    }
  }

  /****** The partition ******/

  // Every block is in exactly one component, two blocks share one exactly when each reaches
  // the other, and nothing reaches a component emitted after its own.
  method SCCs(g: CFG) returns (result: seq<seq<BlockId>>)
    requires EdgesInRange(g.blocks)
    ensures Covers(g, result) && AreClasses(g, result) && EdgesGoBack(g, result)
    ensures forall k, l, v, w ::
      0 <= k < |result| && 0 <= l < |result| && v in result[k] && w in result[l] && R(g, v, w) ==> l <= k
  {
    hide R, AreClasses, EdgesGoBack, HasAnchor, NoWhiteSuccessor, GraysReach, Grows;
    var f := new Finder(g);
    for v := 0 to |g.blocks|
      invariant f.Wired() && Inv(g, f.Now(), {}) && f.g == g && f.stack == []
      invariant forall w: nat :: w < v ==> Visited(f.Now(), w)
      invariant fresh(f) && fresh(f.index) && fresh(f.low) && fresh(f.onStack)
    {
      if f.index[v] == -1 {
        ghost var s := f.Now();
        f.StrongConnect(v, {});
        StillVisited(s, f.Now());
        EmptyStack(g, f.Now());
      }
    }
    result := f.result;
    forall v: nat | v < |g.blocks| ensures InPrefix(result, |result|, v) {
      assert Emitted(f.Now(), v);
    }
    forall k, l, v, w | 0 <= k < |result| && 0 <= l < |result| && v in result[k] && w in result[l] && R(g, v, w)
      ensures l <= k {
      ComponentsGoBack(g, result, k, l, v, w);
    }
  }

  lemma StillVisited(s: Snapshot, t: Snapshot)
    requires Grows(s, t)
    ensures forall v :: Visited(s, v) ==> Visited(t, v)
  {}

  // Without gray blocks nothing anchors the stack.
  lemma EmptyStack(g: CFG, s: Snapshot)
    requires Inv(g, s, {})
    ensures s.stack == []
  {
    if s.stack != [] {
      assert s.stack[0] in s.stack;
      var y := AnchorOf(g, s, {}, s.stack[0]);
    }
  }

  lemma ComponentsGoBack(g: CFG, cs: seq<seq<BlockId>>, k: nat, l: nat, v: BlockId, w: BlockId)
    requires AreClasses(g, cs) && EdgesGoBack(g, cs)
    requires k < |cs| && l < |cs| && v in cs[k] && w in cs[l] && R(g, v, w)
    ensures l <= k
  {
    var es :| IsWalk(g, Any, v, es, w);
    ReverseTopological(g, cs, k, v, es, w, l);
  }
}
