/**
 What trusting calls does to the graph: it splits blocks, and nothing else.

 The builder ends a block at a trusted call and goes on in a new one, with an extra edge to
 the exit.  Merging each such new block into the one before it, and dropping the extra edges,
 gives back the graph that is built when no call is trusted.
 */
module Merging {
  import opened Wrappers
  import opened Graph
  import opened Syntax
  import opened Building
  import opened Closing
  import opened Shapes
  import opened Steps

  // parts[c] are the blocks that structural block c was split into, in order; block t is
  // number at[t] of those of block of[t].
  datatype Merge = Merge(of: seq<BlockId>, at: seq<nat>, parts: seq<seq<BlockId>>)

  ghost predicate Partition(m: Merge) {
    && |m.of| == |m.at|
    && (forall t: nat :: t < |m.of| ==> Belongs(m, t))
    && (forall c: nat :: c < |m.parts| ==> m.parts[c] != [])
    && (forall c: nat, i: nat :: c < |m.parts| && i < |m.parts[c]| ==> Placed(m, c, i))
  }

  ghost predicate Belongs(m: Merge, t: BlockId)
    requires t < |m.of| == |m.at|
  {
    m.of[t] < |m.parts| && m.at[t] < |m.parts[m.of[t]]| && m.parts[m.of[t]][m.at[t]] == t
  }

  ghost predicate Placed(m: Merge, c: BlockId, i: nat)
    requires |m.of| == |m.at| && c < |m.parts| && i < |m.parts[c]|
  {
    m.parts[c][i] < |m.of| && m.of[m.parts[c][i]] == c && m.at[m.parts[c][i]] == i
  }

  ghost predicate Has(m: Merge, c: BlockId) {
    c < |m.parts| && m.parts[c] != []
  }

  ghost function First(m: Merge, c: BlockId): BlockId
    requires Has(m, c)
  {
    m.parts[c][0]
  }

  ghost function Last(m: Merge, c: BlockId): BlockId
    requires Has(m, c)
  {
    m.parts[c][|m.parts[c]| - 1]
  }

  /****** Merged graphs ******/

  function InstrsOf(blocks: seq<BasicBlock>, b: BlockId): seq<Instr> {
    if b < |blocks| then blocks[b].instrs else []
  }

  function Joined(blocks: seq<BasicBlock>, part: seq<BlockId>): seq<Instr> {
    if part == [] then [] else Joined(blocks, part[..|part| - 1]) + InstrsOf(blocks, part[|part| - 1])
  }

  // t ends in a trusted call, after which the next part goes on.
  ghost predicate Cut(blocks: seq<BasicBlock>, t: BlockId, next: BlockId, trust: Instr -> bool)
    requires t < |blocks|
  {
    && blocks[t].succs == [Edge(t, next, Normal), Edge(t, EXIT, TrustedStop)]
    && blocks[t].instrs != [] && trust(blocks[t].instrs[|blocks[t].instrs| - 1])
  }

  // The last part has the block's own edges.
  ghost predicate SuccsMatch(ts: seq<Edge>, ss: seq<Edge>, m: Merge, t: BlockId) {
    |ts| == |ss| && forall j :: 0 <= j < |ss| ==> Has(m, ss[j].to) && ts[j] == Edge(t, First(m, ss[j].to), ss[j].kind)
  }

  ghost predicate Piece(ts: seq<BasicBlock>, ss: seq<BasicBlock>, m: Merge, trust: Instr -> bool, t: BlockId)
    requires t < |ts| == |m.of| && |m.of| == |m.at| && |ss| == |m.parts| && Belongs(m, t)
  {
    var c, i := m.of[t], m.at[t];
    if i + 1 < |m.parts[c]| then Cut(ts, t, m.parts[c][i + 1], trust) else SuccsMatch(ts[t].succs, ss[c].succs, m, t)
  }

  // Merging the parts in blocks ts gives blocks ss.
  ghost predicate MergesTo(ts: seq<BasicBlock>, ss: seq<BasicBlock>, m: Merge, trust: Instr -> bool) {
    && Partition(m) && |m.of| == |m.at| == |ts| && |m.parts| == |ss| && 2 <= |ss|
    && m.parts[ENTRY][0] == ENTRY && m.parts[EXIT] == [EXIT]
    && (forall t :: 0 <= t < |ts| ==> Piece(ts, ss, m, trust, t))
    && (forall c :: 0 <= c < |ss| ==> ss[c].instrs == Joined(ts, m.parts[c]))
  }

  lemma {:induction false} JoinedSame(ts: seq<BasicBlock>, us: seq<BasicBlock>, part: seq<BlockId>)
    requires forall i :: 0 <= i < |part| ==> InstrsOf(ts, part[i]) == InstrsOf(us, part[i])
    ensures Joined(ts, part) == Joined(us, part)
  {
    if part != [] { JoinedSame(ts, us, part[..|part| - 1]); }
  }

  // No chain is made longer; chains only grow.
  ghost predicate Kept(m: Merge, n: Merge) {
    m.of <= n.of && m.at <= n.at && m.parts <= n.parts
  }

  ghost predicate Grown(m: Merge, n: Merge) {
    |m.parts| <= |n.parts| && forall c :: 0 <= c < |m.parts| ==> m.parts[c] <= n.parts[c]
  }

  lemma GrownTrans(m: Merge, n: Merge, r: Merge)
    requires Grown(m, n) && Grown(n, r)
    ensures Grown(m, r)
  {}

  lemma KeptGrown(m: Merge, n: Merge)
    requires Kept(m, n)
    ensures Grown(m, n)
  {}

  lemma KeptTrans(m: Merge, n: Merge, r: Merge)
    requires Kept(m, n) && Kept(n, r)
    ensures Kept(m, r)
  {}

  ghost function WithBlock(m: Merge): Merge {
    Merge(m.of + [|m.parts|], m.at + [0], m.parts + [[|m.of|]])
  }

  ghost function Split(m: Merge, c: BlockId): Merge
    requires c < |m.parts|
  {
    Merge(m.of + [c], m.at + [|m.parts[c]|], m.parts[c := m.parts[c] + [|m.of|]])
  }

  lemma NewPartition(m: Merge)
    requires Partition(m)
    ensures Partition(WithBlock(m)) && Kept(m, WithBlock(m))
  {
    var n := WithBlock(m);
    forall t: nat | t < |n.of| ensures Belongs(n, t) { if t < |m.of| { assert Belongs(m, t); } }
    forall c: nat, i: nat | c < |n.parts| && i < |n.parts[c]| ensures Placed(n, c, i) {
      if c < |m.parts| { assert Placed(m, c, i); }
    }
  }

  lemma SplitPartition(m: Merge, c: BlockId)
    requires Partition(m) && c < |m.parts|
    ensures Partition(Split(m, c)) && Grown(m, Split(m, c))
  {
    var n := Split(m, c);
    forall t: nat | t < |n.of| ensures Belongs(n, t) { if t < |m.of| { assert Belongs(m, t); } }
    forall d: nat, i: nat | d < |n.parts| && i < |n.parts[d]| ensures Placed(n, d, i) {
      if d != c || i < |m.parts[c]| { assert Placed(m, d, i); }
    }
  }

  // A part is either cut, or the last one of its block.
  lemma WhichPart(m: Merge, c: BlockId, t: BlockId)
    requires Partition(m) && Has(m, c) && t < |m.of|
    ensures Belongs(m, t)
    ensures m.of[t] == c && m.at[t] + 1 == |m.parts[c]| <==> t == Last(m, c)
  {
    assert Belongs(m, t) && Placed(m, c, |m.parts[c]| - 1);
  }

  lemma LastInRange(m: Merge, c: BlockId)
    requires Partition(m) && Has(m, c)
    ensures Last(m, c) < |m.of| && First(m, c) < |m.of| && (|m.parts[c]| == 1 ==> First(m, c) == Last(m, c))
  {
    assert Placed(m, c, |m.parts[c]| - 1) && Placed(m, c, 0);
  }

  // Joining only looks at the instructions of the parts.
  lemma ContentsSame(ts: seq<BasicBlock>, us: seq<BasicBlock>, m: Merge, c: BlockId, n: nat)
    requires Partition(m) && |m.of| == |ts| <= |us| && c < |m.parts| && n <= |m.parts[c]|
    requires forall i :: 0 <= i < n ==> m.parts[c][i] < |ts| ==> us[m.parts[c][i]].instrs == ts[m.parts[c][i]].instrs
    ensures Joined(ts, m.parts[c][..n]) == Joined(us, m.parts[c][..n])
  {
    forall i | 0 <= i < n ensures InstrsOf(ts, m.parts[c][i]) == InstrsOf(us, m.parts[c][i]) { assert Placed(m, c, i); }
    JoinedSame(ts, us, m.parts[c][..n]);
  }

  lemma WholePart(m: Merge, c: BlockId)
    requires c < |m.parts|
    ensures m.parts[c][..|m.parts[c]|] == m.parts[c]
  {}

  lemma JoinedMore(us: seq<BasicBlock>, part: seq<BlockId>, b: BlockId)
    requires b < |us| && us[b].instrs == []
    ensures Joined(us, part + [b]) == Joined(us, part)
  {
    assert (part + [b])[..|part|] == part;
  }

  lemma NewMergesTo(ts: seq<BasicBlock>, ss: seq<BasicBlock>, m: Merge, trust: Instr -> bool)
    requires MergesTo(ts, ss, m, trust)
    ensures MergesTo(ts + [BasicBlock(|ts|, [], [], [])], ss + [BasicBlock(|ss|, [], [], [])], WithBlock(m), trust)
  {
    hide Piece, Joined, Partition;
    var us, rs, n := ts + [BasicBlock(|ts|, [], [], [])], ss + [BasicBlock(|ss|, [], [], [])], WithBlock(m);
    NewPartition(m);
    forall t: nat | t < |us| ensures Belongs(n, t) && Piece(us, rs, n, trust, t) {
      WhichPart(n, |ss|, t);
      if t < |ts| { WhichPart(m, 0, t); }
      NewPiece(ts, ss, m, trust, t);
    }
    forall c: nat | c < |rs| ensures rs[c].instrs == Joined(us, n.parts[c]) {
      if c < |ss| {
        ContentsSame(ts, us, m, c, |m.parts[c]|);
        WholePart(m, c);
      } else {
        JoinedMore(us, [], |ts|);
        assert [] + [|ts|] == [|ts|] && n.parts[c] == [|ts|] && Joined(us, []) == [] by { JoinedNone(us); }
      }
    }
  }

  lemma JoinedNone(blocks: seq<BasicBlock>)
    ensures Joined(blocks, []) == []
  {}

  lemma NewPiece(ts: seq<BasicBlock>, ss: seq<BasicBlock>, m: Merge, trust: Instr -> bool, t: BlockId)
    requires |m.of| == |m.at| == |ts| && |m.parts| == |ss| && t <= |ts| && Belongs(WithBlock(m), t)
    requires t < |ts| ==> Belongs(m, t) && Piece(ts, ss, m, trust, t)
    ensures Piece(ts + [BasicBlock(|ts|, [], [], [])], ss + [BasicBlock(|ss|, [], [], [])], WithBlock(m), trust, t)
  {}

  lemma EdgeMergesTo(ts: seq<BasicBlock>, ss: seq<BasicBlock>, m: Merge, trust: Instr -> bool, c: BlockId, d: BlockId,
      kind: EdgeKind)
    requires MergesTo(ts, ss, m, trust) && Has(m, c) && Has(m, d) && Last(m, c) < |ts| && First(m, d) < |ts|
    ensures MergesTo(WithEdge(ts, Last(m, c), First(m, d), kind), WithEdge(ss, c, d, kind), m, trust)
  {
    hide Piece, Joined, Partition, WithEdge, Belongs;
    var us, rs := WithEdge(ts, Last(m, c), First(m, d), kind), WithEdge(ss, c, d, kind);
    forall t: nat | t < |us| ensures Belongs(m, t) && Piece(us, rs, m, trust, t) {
      WhichPart(m, c, t);
      EdgePiece(ts, ss, us, rs, m, trust, c, d, kind, t);
    }
    forall x: nat | x < |rs| ensures rs[x].instrs == Joined(us, m.parts[x]) {
      ContentsSame(ts, us, m, x, |m.parts[x]|);
      WholePart(m, x);
    }
  }

  lemma EdgePiece(ts: seq<BasicBlock>, ss: seq<BasicBlock>, us: seq<BasicBlock>, rs: seq<BasicBlock>, m: Merge,
      trust: Instr -> bool,
    c: BlockId, d: BlockId, kind: EdgeKind, t: BlockId)
    requires Has(m, c) && Has(m, d) && t < |ts| == |us| == |m.of| && |m.of| == |m.at| && |ss| == |rs| == |m.parts|
    requires Belongs(m, t) && Piece(ts, ss, m, trust, t)
      && (m.of[t] == c && m.at[t] + 1 == |m.parts[c]| <==> t == Last(m, c))
    requires us[t].instrs == ts[t].instrs
    requires us[t].succs == ts[t].succs + if t == Last(m, c) then [Edge(t, First(m, d), kind)] else []
    requires rs[m.of[t]].succs == ss[m.of[t]].succs + if m.of[t] == c then [Edge(c, d, kind)] else []
    ensures Piece(us, rs, m, trust, t)
  {
    assert ts[t].succs + [] == ts[t].succs && ss[m.of[t]].succs + [] == ss[m.of[t]].succs;
  }

  ghost function WithInstr(blocks: seq<BasicBlock>, b: BlockId, id: Instr): seq<BasicBlock>
    requires b < |blocks|
  {
    blocks[b := blocks[b].(instrs := blocks[b].instrs + [id])]
  }

  lemma EmitMergesTo(ts: seq<BasicBlock>, ss: seq<BasicBlock>, m: Merge, trust: Instr -> bool, c: BlockId, id: Instr)
    requires MergesTo(ts, ss, m, trust) && Has(m, c) && Last(m, c) < |ts|
    ensures MergesTo(WithInstr(ts, Last(m, c), id), WithInstr(ss, c, id), m, trust)
  {
    hide Joined, Partition;
    var b, n := Last(m, c), |m.parts[c]|;
    var us, rs := WithInstr(ts, b, id), WithInstr(ss, c, id);
    forall t: nat | t < |us| ensures Belongs(m, t) && Piece(us, rs, m, trust, t) {
      WhichPart(m, c, t);
      assert Piece(ts, ss, m, trust, t);
    }
    forall x: nat | x < |rs| ensures rs[x].instrs == Joined(us, m.parts[x]) {
      EmitContents(ts, ss, us, rs, m, c, id, x);
    }
  }

  lemma EmitContents(ts: seq<BasicBlock>, ss: seq<BasicBlock>, us: seq<BasicBlock>, rs: seq<BasicBlock>, m: Merge,
      c: BlockId, id: Instr, x: BlockId)
    requires Partition(m) && Has(m, c) && |ts| == |m.of| && |ss| == |m.parts| && x < |ss| && Last(m, c) < |ts|
    requires us == WithInstr(ts, Last(m, c), id) && rs == WithInstr(ss, c, id) && ss[x].instrs == Joined(ts, m.parts[x])
    ensures rs[x].instrs == Joined(us, m.parts[x])
  {
    hide Partition;
    var part := m.parts[x];
    var n := |part| - if x == c then 1 else 0;
    forall i | 0 <= i < n ensures part[i] != Last(m, c) { NotTheLast(m, c, x, i); }
    ContentsSame(ts, us, m, x, n);
    if x != c {
      WholePart(m, x);
    } else {
      JoinedLast(ts, part);
      JoinedLast(us, part);
      assert (Joined(ts, part[..n]) + InstrsOf(ts, part[n])) + [id] ==
        Joined(ts, part[..n]) + (InstrsOf(ts, part[n]) + [id]);
    }
  }

  lemma JoinedLast(blocks: seq<BasicBlock>, part: seq<BlockId>)
    requires part != []
    ensures Joined(blocks, part) == Joined(blocks, part[..|part| - 1]) + InstrsOf(blocks, part[|part| - 1])
  {}

  lemma NotTheLast(m: Merge, c: BlockId, x: BlockId, i: nat)
    requires Partition(m) && Has(m, c) && x < |m.parts| && i < |m.parts[x]| && (x != c || i < |m.parts[c]| - 1)
    ensures m.parts[x][i] != Last(m, c)
  {
    assert Placed(m, x, i) && Placed(m, c, |m.parts[c]| - 1);
  }

  // The step at a trusted call: a new part, linked to the one before.
  ghost function Linked(ts: seq<BasicBlock>, b: BlockId): seq<BasicBlock>
    requires EXIT < |ts| && b < |ts|
  {
    WithEdge(WithEdge(ts + [BasicBlock(|ts|, [], [], [])], b, |ts|, Normal), b, EXIT, TrustedStop)
  }

  lemma SplitMergesTo(ts: seq<BasicBlock>, ss: seq<BasicBlock>, m: Merge, trust: Instr -> bool, c: BlockId)
    requires MergesTo(ts, ss, m, trust) && EXIT < |ts| && Has(m, c) && c != EXIT && Last(m, c) < |ts|
      && ts[Last(m, c)].succs == []
    requires var ids := ts[Last(m, c)].instrs; ids != [] && trust(ids[|ids| - 1])
    ensures MergesTo(Linked(ts, Last(m, c)), ss, Split(m, c), trust)
  {
    hide Joined, Partition, Piece, Linked;
    var b, n, us := Last(m, c), Split(m, c), Linked(ts, Last(m, c));
    SplitPartition(m, c);
    LinkedBlocks(ts, b);
    NoSuccs(ts, ss, m, trust, c);
    forall t: nat | t < |us| ensures Belongs(n, t) && Piece(us, ss, n, trust, t) {
      WhichPart(n, c, t);
      if t < |ts| { WhichPart(m, c, t); }
      SplitPiece(ts, ss, us, m, trust, c, t);
    }
    forall x: nat | x < |ss| ensures ss[x].instrs == Joined(us, n.parts[x]) {
      ContentsSame(ts, us, m, x, |m.parts[x]|);
      WholePart(m, x);
      if x == c { JoinedMore(us, m.parts[c], |ts|); }
    }
    assert n.parts[ENTRY][0] == m.parts[ENTRY][0];
  }

  lemma NoSuccs(ts: seq<BasicBlock>, ss: seq<BasicBlock>, m: Merge, trust: Instr -> bool, c: BlockId)
    requires MergesTo(ts, ss, m, trust) && Has(m, c) && Last(m, c) < |ts| && ts[Last(m, c)].succs == []
    ensures ss[c].succs == []
  {
    hide Joined, Partition;
    WhichPart(m, c, Last(m, c));
    assert Piece(ts, ss, m, trust, Last(m, c));
  }

  lemma SplitPiece(ts: seq<BasicBlock>, ss: seq<BasicBlock>, us: seq<BasicBlock>, m: Merge, trust: Instr -> bool,
      c: BlockId, t: BlockId)
    requires Has(m, c) && t < |us| == |ts| + 1 && |m.of| == |m.at| == |ts| && |ss| == |m.parts|
    requires t < |ts| ==>
      Belongs(m, t) && Piece(ts, ss, m, trust, t) && (m.of[t] == c && m.at[t] + 1 == |m.parts[c]| <==> t == Last(m, c))
    requires Belongs(Split(m, c), t)
    requires Last(m, c) < |ts| && ss[c].succs == []
    requires var ids := ts[Last(m, c)].instrs; ids != [] && trust(ids[|ids| - 1])
    requires t == |ts| ==> us[t].succs == []
    requires t < |ts| ==> us[t].instrs == ts[t].instrs
    requires t < |ts| ==>
      us[t].succs == if t == Last(m, c) then [Edge(t, |ts|, Normal), Edge(t, EXIT, TrustedStop)] else ts[t].succs
    ensures Piece(us, ss, Split(m, c), trust, t)
  {
    var n := Split(m, c);
    assert forall x :: Has(m, x) ==> Has(n, x) && First(n, x) == First(m, x);
  }

  lemma LinkedBlocks(ts: seq<BasicBlock>, b: BlockId)
    requires EXIT < |ts| && b < |ts| && ts[b].succs == []
    ensures var us := Linked(ts, b);
      && |us| == |ts| + 1 && us[|ts|].instrs == [] && us[|ts|].succs == []
      && us[b].succs == [Edge(b, |ts|, Normal), Edge(b, EXIT, TrustedStop)]
      && (forall t :: 0 <= t < |ts| ==> us[t].instrs == ts[t].instrs && (t != b ==> us[t].succs == ts[t].succs))
  {}

  /****** Trusted calls are where blocks were split ******/

  // apart: no other instruction has the ID of a trusted call.
  datatype Setting = Setting(trust: Instr -> bool, apart: bool)

  ghost predicate Clean(ids: seq<Instr>, trust: Instr -> bool) {
    forall k :: 0 <= k < |ids| ==> !trust(ids[k])
  }

  ghost predicate IsCut(m: Merge, t: BlockId) {
    t < |m.of| && t < |m.at| && m.of[t] < |m.parts| && m.at[t] + 1 < |m.parts[m.of[t]]|
  }

  // A part holds no trusted call, except the one it was cut at.
  ghost predicate CleanAt(blocks: seq<BasicBlock>, m: Merge, trust: Instr -> bool, t: BlockId)
    requires t < |blocks|
  {
    var ids := blocks[t].instrs;
    Clean(if IsCut(m, t) && ids != [] then ids[..|ids| - 1] else ids, trust)
  }

  ghost predicate CleanAll(blocks: seq<BasicBlock>, m: Merge, w: Setting) {
    w.apart ==> forall t: nat :: t < |blocks| ==> CleanAt(blocks, m, w.trust, t)
  }

  lemma NewClean(blocks: seq<BasicBlock>, m: Merge, w: Setting)
    requires CleanAll(blocks, m, w) && |m.of| == |m.at| == |blocks| && Partition(m)
    ensures CleanAll(blocks + [BasicBlock(|blocks|, [], [], [])], WithBlock(m), w)
  {
    var us, n := blocks + [BasicBlock(|blocks|, [], [], [])], WithBlock(m);
    if w.apart {
      forall t: nat | t < |us| ensures CleanAt(us, n, w.trust, t) {
        if t < |blocks| { assert Belongs(m, t) && CleanAt(blocks, m, w.trust, t); }
      }
    }
  }

  lemma SameClean(blocks: seq<BasicBlock>, us: seq<BasicBlock>, m: Merge, w: Setting)
    requires CleanAll(blocks, m, w) && |us| == |blocks| && forall t :: 0 <= t < |us| ==>
      us[t].instrs == blocks[t].instrs
    ensures CleanAll(us, m, w)
  {
    if w.apart {
      forall t: nat | t < |us| ensures CleanAt(us, m, w.trust, t) { assert CleanAt(blocks, m, w.trust, t); }
    }
  }

  lemma EmitClean(blocks: seq<BasicBlock>, m: Merge, w: Setting, c: BlockId, id: Instr)
    requires CleanAll(blocks, m, w) && Partition(m) && Has(m, c) && |m.of| == |blocks| && Last(m, c) < |blocks|
      && (w.apart ==> !w.trust(id))
    ensures CleanAll(WithInstr(blocks, Last(m, c), id), m, w)
  {
    var b, us := Last(m, c), WithInstr(blocks, Last(m, c), id);
    WhichPart(m, c, b);
    if w.apart {
      forall t: nat | t < |us| ensures CleanAt(us, m, w.trust, t) { assert CleanAt(blocks, m, w.trust, t); }
    }
  }

  // The trusted call itself is emitted, and its block split.
  lemma SplitClean(blocks: seq<BasicBlock>, m: Merge, w: Setting, c: BlockId, id: Instr)
    requires CleanAll(blocks, m, w) && Partition(m) && Has(m, c) && |m.of| == |blocks| && Last(m, c) < |blocks|
      && EXIT < |blocks|
    requires blocks[Last(m, c)].succs == []
    ensures CleanAll(Linked(WithInstr(blocks, Last(m, c), id), Last(m, c)), Split(m, c), w)
  {
    hide Linked;
    var b, n := Last(m, c), Split(m, c);
    var es := WithInstr(blocks, b, id);
    var us := Linked(es, b);
    WhichPart(m, c, b);
    SplitPartition(m, c);
    LinkedBlocks(es, b);
    if w.apart {
      forall t: nat | t < |us| ensures CleanAt(us, n, w.trust, t) {
        assert Belongs(n, t);
        if t < |blocks| {
          assert Belongs(m, t) && CleanAt(blocks, m, w.trust, t);
          if t == b {
            assert us[t].instrs[..|us[t].instrs| - 1] == blocks[t].instrs;
            assert n.at[b] + 1 < |n.parts[c]|;
          } else {
            WhichPart(m, c, t);
          }
        }
      }
    }
  }

  // No other statement's instruction is taken for a trusted call.
  ghost predicate Apart(s: Stmt, trust: Instr -> bool)
    decreases s, 0
  {
    match s
    case Block(list) => ApartAll(list, trust)
    case Labeled(_, body) => Apart(body, trust)
    case Exec(x) => ApartSimple(x, trust)
    case VarDecl(specs) => forall i :: 0 <= i < |specs| ==> ApartSimple(specs[i], trust)
    case Opaque(id) => !trust(id)
    case GoCall(id, _) => !trust(id)
    case DeferCall(id, _) => !trust(id)
    case ReturnStmt(id, _) => !trust(id)
    case FallthroughStmt(id) => !trust(id)
    case If(init, _, thn, els) => ApartInit(init, trust) && ApartAll(thn, trust)
      && (els.Some? ==> Apart(els.value, trust))
    case For(init, _, post, loop) => ApartInit(init, trust) && ApartInit(post, trust) && ApartAll(loop, trust)
    case Range(loop) => ApartAll(loop, trust)
    case Switch(init, clauses) => ApartInit(init, trust) && forall i :: 0 <= i < |clauses| ==>
      ApartAll(clauses[i].body, trust)
    case Select(clauses) => forall i :: 0 <= i < |clauses| ==> ApartAll(clauses[i].body, trust)
    case _ => true
  }

  ghost predicate ApartAll(list: seq<Stmt>, trust: Instr -> bool)
    decreases list, 0
  {
    forall i :: 0 <= i < |list| ==> Apart(list[i], trust)
  }

  ghost predicate ApartSimple(x: Simple, trust: Instr -> bool) {
    x.panics ==> !trust(x.id)
  }

  ghost predicate ApartInit(init: Option<Simple>, trust: Instr -> bool) {
    init.Some? ==> ApartSimple(init.value, trust)
  }
}
