/**
 Package waves: workers take packages of one level off a job channel, look facts up in the
 shared store while they analyse, record their own facts, and write a result; a barrier
 separates the levels.

 Every interleaving is a sequence of the steps below, for any number of workers.
 */
module Waves {
  import opened Wrappers
  import opened Levels

  type Key = nat

  type Fact = nat

  type Res = nat

  // The next thing an analysis does, given the answers to its lookups so far.
  datatype Action = Ask(key: Key) | Finish(facts: map<Key, Fact>, result: Res)

  datatype Project = Project(units: seq<Unit>, levels: seq<seq<nat>>, owner: Key -> Option<nat>,
    next: (nat, seq<Option<Fact>>) -> Action)

  // A selected package that unit i imports, directly or through others.
  ghost predicate Imports(p: Project, i: nat, j: nat) {
    exists chain :: IsChain(p.units, chain) && |chain| > 1 && chain[0] == i && chain[|chain| - 1] == j
  }

  // The levels are those of analysisLevels; a unit's facts are about its own functions, and
  // it asks only for those of packages it imports (or for functions of no selected package).
  ghost predicate Valid(p: Project) {
    && Layered(p.units, p.levels)
    && (forall i: nat, answers :: p.next(i, answers).Ask? ==>
          p.owner(p.next(i, answers).key).None? || Imports(p, i, p.owner(p.next(i, answers).key).value))
    && (forall i: nat, answers, k :: p.next(i, answers).Finish? && k in p.next(i, answers).facts ==>
      p.owner(k) == Some(i))
  }

  datatype Worker = Idle | Busy(unit: nat, answers: seq<Option<Fact>>) | Recorded(unit: nat, result: Res)

  // taken lists the units in the order in which workers took them; done are those finished.
  datatype State = State(
    wave: nat, jobs: seq<nat>, workers: seq<Worker>, store: map<Key, Fact>, results: map<nat, Res>,
    taken: seq<nat>, done: set<nat>)

  /****** Steps ******/

  function Find(store: map<Key, Fact>, k: Key): Option<Fact> {
    if k in store then Some(store[k]) else None
  }

  function JobsOf(p: Project, wave: nat): seq<nat> {
    if wave < |p.levels| then p.levels[wave] else []
  }

  predicate AllIdle(workers: seq<Worker>) {
    forall w :: 0 <= w < |workers| ==> workers[w] == Idle
  }

  predicate Init(p: Project, s: State) {
    AllIdle(s.workers) && s == State(0, JobsOf(p, 0), s.workers, map[], map[], [], {})
  }

  predicate Take(p: Project, s: State, t: State, w: nat) {
    w < |s.workers| && s.workers[w] == Idle && s.jobs != [] &&
    t == s.(jobs := s.jobs[1..], workers := s.workers[w := Busy(s.jobs[0], [])], taken := s.taken + [s.jobs[0]])
  }

  predicate LookUp(p: Project, s: State, t: State, w: nat) {
    w < |s.workers| && s.workers[w].Busy? &&
    var i, answers := s.workers[w].unit, s.workers[w].answers;
    p.next(i, answers).Ask? &&
    t == s.(workers := s.workers[w := Busy(i, answers + [Find(s.store, p.next(i, answers).key)])])
  }

  predicate Record(p: Project, s: State, t: State, w: nat) {
    w < |s.workers| && s.workers[w].Busy? &&
    var i, answers := s.workers[w].unit, s.workers[w].answers;
    p.next(i, answers).Finish? &&
    t == s.(workers := s.workers[w := Recorded(i, p.next(i, answers).result)],
      store := s.store + p.next(i, answers).facts)
  }

  predicate WriteResult(p: Project, s: State, t: State, w: nat) {
    w < |s.workers| && s.workers[w].Recorded? &&
    var i := s.workers[w].unit;
    t == s.(workers := s.workers[w := Idle], results := s.results[i := s.workers[w].result], done := s.done + {i})
  }

  // The barrier: the channel is drained, every worker is through, and the next wave starts
  // with as many workers as it likes.
  predicate NextWave(p: Project, s: State, t: State) {
    s.wave < |p.levels| && s.jobs == [] && AllIdle(s.workers) && AllIdle(t.workers) &&
    t == s.(wave := s.wave + 1, jobs := JobsOf(p, s.wave + 1), workers := t.workers)
  }

  ghost predicate Step(p: Project, s: State, t: State) {
    NextWave(p, s, t)
      || exists w :: Take(p, s, t, w) || LookUp(p, s, t, w) || Record(p, s, t, w) || WriteResult(p, s, t, w)
  }

  // A run: the states one after the other.
  ghost predicate IsRun(p: Project, run: seq<State>) {
    run != [] && Init(p, run[0]) && forall k :: 0 <= k < |run| - 1 ==> Step(p, run[k], run[k + 1])
  }

  /****** What an analysis has seen ******/

  // The answers are those the store gives to the questions asked.
  ghost predicate Answered(p: Project, store: map<Key, Fact>, i: nat, answers: seq<Option<Fact>>) {
    forall q :: 0 <= q < |answers| ==> AnsweredAt(p, store, i, answers, q)
  }

  ghost predicate AnsweredAt(p: Project, store: map<Key, Fact>, i: nat, answers: seq<Option<Fact>>, q: nat)
    requires q < |answers|
  {
    p.next(i, answers[..q]).Ask? && answers[q] == Find(store, p.next(i, answers[..q]).key)
  }

  ghost function FactsOf(p: Project, store: map<Key, Fact>, i: nat): map<Key, Fact> {
    map k | k in store && p.owner(k) == Some(i) :: store[k]
  }

  // Analysing unit i against the store gives this result and the facts the store has of i.
  ghost predicate Analysed(p: Project, store: map<Key, Fact>, i: nat, result: Res) {
    exists answers :: Answered(p, store, i, answers) && p.next(i, answers) == Finish(FactsOf(p, store, i), result)
  }

  // Two stores look the same to unit i.
  ghost predicate SameView(p: Project, a: map<Key, Fact>, b: map<Key, Fact>, i: nat) {
    forall k :: p.owner(k).None? || Imports(p, i, p.owner(k).value) ==> Find(a, k) == Find(b, k)
  }

  lemma SameAnswers(p: Project, a: map<Key, Fact>, b: map<Key, Fact>, i: nat, answers: seq<Option<Fact>>)
    requires Valid(p) && SameView(p, a, b, i) && Answered(p, a, i, answers)
    ensures Answered(p, b, i, answers)
  {
    forall q | 0 <= q < |answers| ensures AnsweredAt(p, b, i, answers, q) {
      assert AnsweredAt(p, a, i, answers, q);
    }
  }

  lemma SameAnalysis(p: Project, a: map<Key, Fact>, b: map<Key, Fact>, i: nat, result: Res)
    requires Valid(p) && SameView(p, a, b, i) && FactsOf(p, a, i) == FactsOf(p, b, i) && Analysed(p, a, i, result)
    ensures Analysed(p, b, i, result)
  {
    hide Answered, SameView, FactsOf, Valid;
    var answers :| Answered(p, a, i, answers) && p.next(i, answers) == Finish(FactsOf(p, a, i), result);
    SameAnswers(p, a, b, i, answers);
  }

  /****** The invariant ******/

  ghost predicate On(workers: seq<Worker>, i: nat) {
    exists w :: 0 <= w < |workers| && !workers[w].Idle? && workers[w].unit == i
  }

  // Every unit is where it should be: earlier levels done, the current one divided among the
  // channel, the workers and the finished, later ones untouched; no unit is in two places.
  ghost predicate Placing(p: Project, s: State) {
    && s.wave <= |p.levels|
    && (forall i: nat :: i in s.jobs || On(s.workers, i) ==>
      s.wave < |p.levels| && i in p.levels[s.wave] && i !in s.done)
    && (forall i: nat :: i in s.done <==>
      i in Placed(p.levels[..s.wave])
        || (s.wave < |p.levels| && i in p.levels[s.wave] && i !in s.jobs && !On(s.workers, i)))
    && NoRepeats(s.jobs) && (forall i: nat :: i in s.jobs ==> !On(s.workers, i))
    && (forall v, w :: 0 <= v < w < |s.workers| && !s.workers[v].Idle? && !s.workers[w].Idle? ==>
      s.workers[v].unit != s.workers[w].unit)
  }

  ghost predicate TakenOnce(s: State) {
    NoRepeats(s.taken) && forall i: nat :: i in s.taken <==> On(s.workers, i) || i in s.done
  }

  ghost predicate HasRecorded(s: State, i: nat) {
    i in s.done || exists w :: 0 <= w < |s.workers| && s.workers[w].Recorded? && s.workers[w].unit == i
  }

  ghost predicate Contents(p: Project, s: State) {
    && (forall k :: k in s.store ==> p.owner(k).Some? && HasRecorded(s, p.owner(k).value))
    && (forall w :: 0 <= w < |s.workers| ==> WorkerOk(p, s.store, s.workers[w]))
    && (forall i :: i in s.done ==> i in s.results && Analysed(p, s.store, i, s.results[i]))
    && (forall i :: i in s.results ==> i in s.done)
  }

  ghost predicate WorkerOk(p: Project, store: map<Key, Fact>, w: Worker) {
    match w
    case Idle => true
    case Busy(i, answers) => Answered(p, store, i, answers)
    case Recorded(i, result) => Analysed(p, store, i, result)
  }

  ghost predicate Inv(p: Project, s: State) {
    Placing(p, s) && TakenOnce(s) && Contents(p, s)
  }

  // The barrier's promise: what a unit imports is done before the unit is taken.
  lemma ImportsDone(p: Project, s: State, i: nat, j: nat)
    requires Valid(p) && Placing(p, s) && (i in s.done || On(s.workers, i) || i in s.jobs) && Imports(p, i, j)
    ensures j in s.done && j != i
  {
    hide Layered, On, IsChain;
    var chain :| IsChain(p.units, chain) && |chain| > 1 && chain[0] == i && chain[|chain| - 1] == j;
    var l := LevelUpTo(p, s, i);
    var m := ChainDescends(p.units, p.levels, chain, l);
    assert p.levels[..s.wave][m] == p.levels[m];
    PlacedIn(p.levels[..s.wave], j);
    LevelsApart(p, m, l, j);
  }

  lemma LevelUpTo(p: Project, s: State, i: nat) returns (l: nat)
    requires Placing(p, s) && (i in s.done || On(s.workers, i) || i in s.jobs)
    ensures l <= s.wave && l < |p.levels| && i in p.levels[l]
  {
    hide On;
    if i in Placed(p.levels[..s.wave]) {
      PlacedIn(p.levels[..s.wave], i);
      l :| 0 <= l < s.wave && i in p.levels[..s.wave][l];
    } else {
      l := s.wave;
    }
  }

  lemma LevelsApart(p: Project, m: nat, l: nat, i: nat)
    requires Layered(p.units, p.levels) && m < l < |p.levels| && i in p.levels[m]
    ensures i !in p.levels[l]
  {}

  // A run can start with any number of workers.
  lemma CanStart(p: Project, n: nat) returns (s: State)
    ensures Init(p, s) && |s.workers| == n && s.jobs == (if p.levels == [] then [] else p.levels[0])
  {
    s := State(0, JobsOf(p, 0), seq(n, _ => Idle), map[], map[], [], {});
  }

  lemma NotEarlier(p: Project, m: nat, l: nat, i: nat)
    requires Layered(p.units, p.levels) && m < l < |p.levels| && i in p.levels[l]
    ensures i !in p.levels[m]
  {}

  lemma StartsWell(p: Project, s: State)
    requires Valid(p) && Init(p, s)
    ensures Inv(p, s)
  {
    assert p.levels[..0] == [];
  }

  /****** Steps keep the invariant ******/

  lemma TakeKeeps(p: Project, s: State, t: State, w: nat)
    requires Inv(p, s) && Take(p, s, t, w)
    ensures Inv(p, t)
  {
    hide Answered, Analysed, Placed;
    var i := s.jobs[0];
    assert s.jobs == [i] + s.jobs[1..] && i in s.jobs;
    NoRepeatsCons(i, s.jobs[1..]);
    NoAnswers(p, s.store, i);
    forall x: nat ensures On(t.workers, x) <==> On(s.workers, x) || x == i { Assigned(s.workers, w, t.workers[w], x); }
    assert TakenOnce(t) by {
      forall a, b | 0 <= a < b < |t.taken| ensures t.taken[a] != t.taken[b] {
        if b == |s.taken| { assert s.taken[a] in s.taken; }
      }
    }
    assert forall x: nat :: HasRecorded(s, x) ==> HasRecorded(t, x) by { StillRecorded(s, t, w); }
  }

  lemma NoAnswers(p: Project, store: map<Key, Fact>, i: nat)
    ensures Answered(p, store, i, [])
  {}

  // Giving an idle worker a unit.
  lemma Assigned(workers: seq<Worker>, w: nat, job: Worker, x: nat)
    requires w < |workers| && workers[w].Idle? && !job.Idle?
    ensures On(workers[w := job], x) <==> On(workers, x) || x == job.unit
  {
    var after := workers[w := job];
    if On(workers, x) {
      var v :| 0 <= v < |workers| && !workers[v].Idle? && workers[v].unit == x;
      assert after[v] == workers[v];
    }
    assert after[w] == job;
  }

  // Moving a worker on within its unit.
  lemma SameUnit(workers: seq<Worker>, w: nat, job: Worker, x: nat)
    requires w < |workers| && !workers[w].Idle? && !job.Idle? && job.unit == workers[w].unit
    ensures On(workers[w := job], x) <==> On(workers, x)
  {
    var after := workers[w := job];
    if On(workers, x) {
      var v :| 0 <= v < |workers| && !workers[v].Idle? && workers[v].unit == x;
      assert after[v].unit == x;
    }
  }

  lemma StillRecorded(s: State, t: State, w: nat)
    requires w < |s.workers| == |t.workers| && s.done <= t.done && forall v :: 0 <= v < |s.workers| && v != w ==>
      t.workers[v] == s.workers[v]
    requires s.workers[w].Recorded? ==> s.workers[w].unit in t.done
    ensures forall x: nat :: HasRecorded(s, x) ==> HasRecorded(t, x)
  {
    forall x: nat | HasRecorded(s, x) ensures HasRecorded(t, x) {
      if x !in s.done {
        var v :| 0 <= v < |s.workers| && s.workers[v].Recorded? && s.workers[v].unit == x;
        if v != w { assert t.workers[v] == s.workers[v]; }
      }
    }
  }

  lemma LookUpKeeps(p: Project, s: State, t: State, w: nat)
    requires Inv(p, s) && LookUp(p, s, t, w)
    ensures Inv(p, t)
  {
    hide Analysed, Placed, Answered;
    var i, answers := s.workers[w].unit, s.workers[w].answers;
    forall x: nat ensures On(t.workers, x) <==> On(s.workers, x) { SameUnit(s.workers, w, t.workers[w], x); }
    assert forall x: nat :: HasRecorded(s, x) ==> HasRecorded(t, x) by { StillRecorded(s, t, w); }
    assert WorkerOk(p, s.store, s.workers[w]);
    OneMoreAnswer(p, s.store, i, answers);
    forall v | 0 <= v < |t.workers| ensures WorkerOk(p, t.store, t.workers[v]) {
      if v != w { assert t.workers[v] == s.workers[v]; }
    }
  }

  lemma OneMoreAnswer(p: Project, store: map<Key, Fact>, i: nat, answers: seq<Option<Fact>>)
    requires Answered(p, store, i, answers) && p.next(i, answers).Ask?
    ensures Answered(p, store, i, answers + [Find(store, p.next(i, answers).key)])
  {
    var more := answers + [Find(store, p.next(i, answers).key)];
    forall q | 0 <= q < |more| ensures AnsweredAt(p, store, i, more, q) {
      if q < |answers| {
        assert more[..q] == answers[..q] && AnsweredAt(p, store, i, answers, q);
      } else {
        assert more[..q] == answers;
      }
    }
  }

  // Facts of unit i do not show to units that do not import it, nor change other units' own.
  lemma Unseen(p: Project, store: map<Key, Fact>, facts: map<Key, Fact>, i: nat, x: nat)
    requires forall k :: k in facts ==> p.owner(k) == Some(i)
    requires x != i && !Imports(p, x, i)
    ensures SameView(p, store, store + facts, x) && FactsOf(p, store, x) == FactsOf(p, store + facts, x)
  {
    hide Imports;
  }

  // A unit's own facts, once recorded.
  lemma OwnFacts(p: Project, s: State, facts: map<Key, Fact>, i: nat)
    requires Contents(p, s) && !HasRecorded(s, i) && forall k :: k in facts ==> p.owner(k) == Some(i)
    ensures FactsOf(p, s.store + facts, i) == facts
  {
    hide HasRecorded, Answered, Analysed;
    assert forall k :: k in s.store ==> p.owner(k) != Some(i);
  }

  lemma RecordKeeps(p: Project, s: State, t: State, w: nat)
    requires Valid(p) && Inv(p, s) && Record(p, s, t, w)
    ensures Inv(p, t)
  {
    hide Placed, Answered, Analysed, Valid, Imports, FactsOf, Placing, TakenOnce, SameView;
    var i, answers := s.workers[w].unit, s.workers[w].answers;
    var facts := p.next(i, answers).facts;
    assert On(s.workers, i);
    NotYetRecorded(p, s, w);
    FactsOwned(p, i, answers);
    OwnFacts(p, s, facts, i);
    NotImporting(p, s, i, i);
    SelfUnseen(p, s.store, facts, i);
    assert WorkerOk(p, s.store, s.workers[w]);
    SameAnswers(p, s.store, t.store, i, answers);
    assert Analysed(p, t.store, i, p.next(i, answers).result) by { Finishes(p, t.store, i, answers); }
    forall v | 0 <= v < |t.workers| ensures WorkerOk(p, t.store, t.workers[v]) {
      if v != w { OtherWorker(p, s, t, w, v); }
    }
    forall x | x in t.done ensures x in t.results && Analysed(p, t.store, x, t.results[x]) {
      NotImporting(p, s, x, i);
      DoneElsewhere(p, s, x, i);
      Unseen(p, s.store, facts, i, x);
      SameAnalysis(p, s.store, t.store, x, s.results[x]);
    }
    assert Contents(p, t) by { RecordedContents(p, s, t, w); }
    SamePlaces(p, s, t, w);
  }

  lemma RecordedContents(p: Project, s: State, t: State, w: nat)
    requires Valid(p) && Contents(p, s) && Record(p, s, t, w)
    requires forall v :: 0 <= v < |t.workers| ==> WorkerOk(p, t.store, t.workers[v])
    requires forall x :: x in t.done ==> x in t.results && Analysed(p, t.store, x, t.results[x])
    ensures Contents(p, t)
  {
    hide Answered, Analysed, Imports;
    var i, answers := s.workers[w].unit, s.workers[w].answers;
    StillRecorded(s, t, w);
    assert HasRecorded(t, i) by { assert t.workers[w].Recorded?; }
  }

  lemma Finishes(p: Project, store: map<Key, Fact>, i: nat, answers: seq<Option<Fact>>)
    requires Answered(p, store, i, answers) && p.next(i, answers).Finish?
      && p.next(i, answers).facts == FactsOf(p, store, i)
    ensures Analysed(p, store, i, p.next(i, answers).result)
  {}

  lemma SelfUnseen(p: Project, store: map<Key, Fact>, facts: map<Key, Fact>, i: nat)
    requires (forall k :: k in facts ==> p.owner(k) == Some(i)) && !Imports(p, i, i)
    ensures SameView(p, store, store + facts, i)
  {
    hide Imports;
  }

  lemma FactsOwned(p: Project, i: nat, answers: seq<Option<Fact>>)
    requires Valid(p) && p.next(i, answers).Finish?
    ensures forall k :: k in p.next(i, answers).facts ==> p.owner(k) == Some(i)
  {}

  lemma NotYetRecorded(p: Project, s: State, w: nat)
    requires Placing(p, s) && w < |s.workers| && s.workers[w].Busy?
    ensures !HasRecorded(s, s.workers[w].unit)
  {
    assert On(s.workers, s.workers[w].unit);
  }

  // Nobody at work or done imports a unit that is still at work.
  lemma NotImporting(p: Project, s: State, x: nat, i: nat)
    requires Valid(p) && Placing(p, s) && On(s.workers, i) && (x in s.done || On(s.workers, x))
    ensures !Imports(p, x, i)
  {
    hide On, Placed, Imports, Valid;
    if Imports(p, x, i) { ImportsDone(p, s, x, i); }
  }

  lemma DoneElsewhere(p: Project, s: State, x: nat, i: nat)
    requires Placing(p, s) && On(s.workers, i) && x in s.done
    ensures x != i
  {
    hide On, Placed;
  }

  lemma OtherWorker(p: Project, s: State, t: State, w: nat, v: nat)
    requires Valid(p) && Inv(p, s) && Record(p, s, t, w) && v < |s.workers| && v != w
    ensures WorkerOk(p, t.store, t.workers[v])
  {
    hide Placed, Answered, Analysed, Valid, Imports, FactsOf, TakenOnce, SameView;
    assert t.workers[v] == s.workers[v] && WorkerOk(p, s.store, s.workers[v]);
    if !s.workers[v].Idle? {
      var x, i := s.workers[v].unit, s.workers[w].unit;
      assert On(s.workers, x) && On(s.workers, i);
      FactsOwned(p, i, s.workers[w].answers);
      NotImporting(p, s, x, i);
      assert x != i;
      Unseen(p, s.store, p.next(i, s.workers[w].answers).facts, i, x);
      if s.workers[v].Busy? { SameAnswers(p, s.store, t.store, x, s.workers[v].answers); }
      else { SameAnalysis(p, s.store, t.store, x, s.workers[v].result); }
    }
  }

  lemma SamePlaces(p: Project, s: State, t: State, w: nat)
    requires Placing(p, s) && TakenOnce(s) && Record(p, s, t, w)
    ensures Placing(p, t) && TakenOnce(t)
  {
    hide Placed;
    forall x: nat ensures On(t.workers, x) <==> On(s.workers, x) { SameUnit(s.workers, w, t.workers[w], x); }
  }

  lemma WriteKeeps(p: Project, s: State, t: State, w: nat)
    requires Inv(p, s) && WriteResult(p, s, t, w)
    ensures Inv(p, t)
  {
    hide Placed, Answered, Analysed;
    var i := s.workers[w].unit;
    assert On(s.workers, i) && WorkerOk(p, s.store, s.workers[w]);
    forall x: nat ensures On(t.workers, x) <==> On(s.workers, x) && x != i { Released(s.workers, w, x); }
    assert forall x: nat :: HasRecorded(s, x) ==> HasRecorded(t, x) by { StillRecorded(s, t, w); }
    forall v | 0 <= v < |t.workers| ensures WorkerOk(p, t.store, t.workers[v]) {
      if v != w { assert t.workers[v] == s.workers[v]; }
    }
  }

  lemma Released(workers: seq<Worker>, w: nat, x: nat)
    requires w < |workers| && !workers[w].Idle?
    requires forall v, u :: 0 <= v < u < |workers| && !workers[v].Idle? && !workers[u].Idle? ==>
      workers[v].unit != workers[u].unit
    ensures On(workers[w := Idle], x) <==> On(workers, x) && x != workers[w].unit
  {
    var after := workers[w := Idle];
    if On(after, x) {
      var v :| 0 <= v < |after| && !after[v].Idle? && after[v].unit == x;
      assert v != w && workers[v] == after[v];
    }
    if On(workers, x) && x != workers[w].unit {
      var v :| 0 <= v < |workers| && !workers[v].Idle? && workers[v].unit == x;
      assert after[v] == workers[v];
    }
  }

  lemma JobsAreNew(p: Project, wave: nat, i: nat)
    requires Layered(p.units, p.levels) && wave <= |p.levels| && i in JobsOf(p, wave)
    ensures i !in Placed(p.levels[..wave])
  {
    hide Layered;
    var before := p.levels[..wave];
    PlacedIn(before, i);
    forall l | 0 <= l < |before| ensures i !in before[l] { NotEarlier(p, l, wave, i); }
  }

  lemma NextWaveKeeps(p: Project, s: State, t: State)
    requires Valid(p) && Inv(p, s) && NextWave(p, s, t)
    ensures Inv(p, t)
  {
    hide Answered, Analysed, Imports, DependencyFirst;
    assert forall x: nat :: !On(s.workers, x) && !On(t.workers, x);
    var before, after := p.levels[..s.wave], p.levels[..t.wave];
    assert after[..|after| - 1] == before && after[|after| - 1] == p.levels[s.wave];
    forall i: nat | i in JobsOf(p, t.wave) ensures i !in Placed(after) { JobsAreNew(p, t.wave, i); }
    assert forall k :: k in t.store ==> HasRecorded(t, p.owner(k).value) by {
      forall k | k in s.store ensures p.owner(k).value in s.done {}
    }
  }

  lemma StepKeeps(p: Project, s: State, t: State)
    requires Valid(p) && Inv(p, s) && Step(p, s, t)
    ensures Inv(p, t)
  {
    hide Inv, Valid, Take, LookUp, Record, WriteResult, NextWave;
    if NextWave(p, s, t) {
      NextWaveKeeps(p, s, t);
    } else {
      var w: nat :| Take(p, s, t, w) || LookUp(p, s, t, w) || Record(p, s, t, w) || WriteResult(p, s, t, w);
      if Take(p, s, t, w) { TakeKeeps(p, s, t, w); }
      else if LookUp(p, s, t, w) { LookUpKeeps(p, s, t, w); }
      else if Record(p, s, t, w) { RecordKeeps(p, s, t, w); }
      else { WriteKeeps(p, s, t, w); }
    }
  }

  lemma {:induction false} RunKeeps(p: Project, run: seq<State>, k: nat)
    requires Valid(p) && IsRun(p, run) && k < |run|
    ensures Inv(p, run[k])
    decreases k
  {
    hide Inv, Valid, Step, Init;
    if k == 0 { StartsWell(p, run[0]); } else {
      RunKeeps(p, run, k - 1);
      assert Step(p, run[k - 1], run[k - 1 + 1]);
      StepKeeps(p, run[k - 1], run[k]);
    }
  }

  /****** Whole runs ******/

  ghost predicate Complete(p: Project, s: State) {
    s.wave == |p.levels|
  }

  // A run that is not complete can go on, as long as there is a worker.
  lemma NeverStuck(p: Project, s: State)
    requires s.wave < |p.levels| && s.workers != []
    ensures exists t :: Step(p, s, t)
  {
    if w: nat :| w < |s.workers| && !s.workers[w].Idle? {
      match s.workers[w]
      case Busy(i, answers) =>
        var a := p.next(i, answers);
        if a.Ask? {
          var t := s.(workers := s.workers[w := Busy(i, answers + [Find(s.store, a.key)])]);
          assert LookUp(p, s, t, w) && Step(p, s, t);
        } else {
          var t := s.(workers := s.workers[w := Recorded(i, a.result)], store := s.store + a.facts);
          assert Record(p, s, t, w) && Step(p, s, t);
        }
      case Recorded(i, result) =>
        var t := s.(workers := s.workers[w := Idle], results := s.results[i := result], done := s.done + {i});
        assert WriteResult(p, s, t, w) && Step(p, s, t);
    } else if s.jobs != [] {
      var t := s.(jobs := s.jobs[1..], workers := s.workers[0 := Busy(s.jobs[0], [])], taken := s.taken + [s.jobs[0]]);
      assert Take(p, s, t, 0) && Step(p, s, t);
    } else {
      var t := s.(wave := s.wave + 1, jobs := JobsOf(p, s.wave + 1));
      assert NextWave(p, s, t) && Step(p, s, t);
    }
  }

  // In every state of every run, a unit at work has all packages it imports analysed and
  // their facts in the store.
  lemma FactsCommittedFirst(p: Project, run: seq<State>, k: nat, i: nat, j: nat)
    requires Valid(p) && IsRun(p, run) && k < |run| && On(run[k].workers, i) && Imports(p, i, j)
    ensures j in run[k].done && j in run[k].results && Analysed(p, run[k].store, j, run[k].results[j])
  {
    hide Valid, IsRun, Analysed, Imports;
    RunKeeps(p, run, k);
    ImportsDone(p, run[k], i, j);
  }

  // What a lookup answers: the fact the store holds under the key, or nothing if it holds none.
  ghost predicate Told(p: Project, store: map<Key, Fact>, i: nat, answers: seq<Option<Fact>>) {
    forall q :: 0 <= q < |answers| ==>
      var a := p.next(i, answers[..q]);
      && a.Ask? && (answers[q].Some? <==> a.key in store)
      && (answers[q].Some? ==> answers[q].value == store[a.key])
  }

  lemma AnsweredIsTold(p: Project, store: map<Key, Fact>, i: nat, answers: seq<Option<Fact>>)
    requires Answered(p, store, i, answers)
    ensures Told(p, store, i, answers)
  {
    forall q | 0 <= q < |answers|
      ensures var a := p.next(i, answers[..q]);
        && a.Ask? && (answers[q].Some? <==> a.key in store)
        && (answers[q].Some? ==> answers[q].value == store[a.key])
    {
      assert AnsweredAt(p, store, i, answers, q);
    }
  }

  // In every state of every run, what a unit at work has been told is what the store holds.
  lemma LookUpsSeeStore(p: Project, run: seq<State>, k: nat, w: nat)
    requires Valid(p) && IsRun(p, run) && k < |run| && w < |run[k].workers| && run[k].workers[w].Busy?
    ensures Told(p, run[k].store, run[k].workers[w].unit, run[k].workers[w].answers)
  {
    hide Valid, IsRun, Analysed, Answered, Placing, TakenOnce, Told;
    RunKeeps(p, run, k);
    assert WorkerOk(p, run[k].store, run[k].workers[w]);
    AnsweredIsTold(p, run[k].store, run[k].workers[w].unit, run[k].workers[w].answers);
  }

  // The step at which unit j recorded its facts; the store still has exactly those of it.
  lemma {:induction false} FinishedWith(p: Project, run: seq<State>, k: nat, j: nat) returns (h: nat, v: nat)
    requires Valid(p) && IsRun(p, run) && k < |run| && HasRecorded(run[k], j)
    ensures h < k && Record(p, run[h], run[h + 1], v) && run[h].workers[v].unit == j
    ensures FactsOf(p, run[k].store, j) == p.next(j, run[h].workers[v].answers).facts
    decreases k
  {
    hide Valid, Placing, TakenOnce, Contents, FactsOf, HasRecorded;
    if k == 0 {
      assert false by { NoneRecorded(p, run[0], j); }
    } else {
      var s, t := run[k - 1], run[k - 1 + 1];
      assert Step(p, s, t);
      RunKeeps(p, run, k - 1);
      if HasRecorded(s, j) {
        h, v := FinishedWith(p, run, k - 1, j);
        FactsStay(p, s, t, j);
      } else {
        h := k - 1;
        v := RecordsNow(p, s, t, j);
      }
    }
  }

  lemma NoneRecorded(p: Project, s: State, j: nat)
    requires Init(p, s)
    ensures !HasRecorded(s, j)
  {}

  lemma FactsStay(p: Project, s: State, t: State, j: nat)
    requires Valid(p) && Inv(p, s) && Step(p, s, t) && HasRecorded(s, j)
    ensures FactsOf(p, t.store, j) == FactsOf(p, s.store, j)
  {
    hide Valid, Placing, TakenOnce, Contents, HasRecorded, FactsOf;
    if !NextWave(p, s, t) {
      var w: nat :| Take(p, s, t, w) || LookUp(p, s, t, w) || Record(p, s, t, w) || WriteResult(p, s, t, w);
      if Record(p, s, t, w) {
        var i, answers := s.workers[w].unit, s.workers[w].answers;
        NotYetRecorded(p, s, w);
        FactsOwned(p, i, answers);
        OthersFacts(p, s.store, p.next(i, answers).facts, i, j);
      }
    }
  }

  lemma OthersFacts(p: Project, store: map<Key, Fact>, facts: map<Key, Fact>, i: nat, j: nat)
    requires i != j && forall k :: k in facts ==> p.owner(k) == Some(i)
    ensures FactsOf(p, store + facts, j) == FactsOf(p, store, j)
  {}

  lemma RecordsNow(p: Project, s: State, t: State, j: nat) returns (v: nat)
    requires Valid(p) && Inv(p, s) && Step(p, s, t) && !HasRecorded(s, j) && HasRecorded(t, j)
    ensures Record(p, s, t, v) && s.workers[v].unit == j
    ensures FactsOf(p, t.store, j) == p.next(j, s.workers[v].answers).facts
  {
    hide Valid, Placing, TakenOnce, FactsOf, Analysed, Answered, Contents;
    assert !NextWave(p, s, t);
    v :| Take(p, s, t, v) || LookUp(p, s, t, v) || Record(p, s, t, v) || WriteResult(p, s, t, v);
    assert j !in t.done;
    var u :| 0 <= u < |t.workers| && t.workers[u].Recorded? && t.workers[u].unit == j;
    assert u == v;
    FactsOwned(p, j, s.workers[v].answers);
    OwnFacts(p, s, p.next(j, s.workers[v].answers).facts, j);
  }

  // Asking about a unit it imports, an analysis is told what that unit finished with.
  lemma LookUpsSeeFacts(p: Project, run: seq<State>, k: nat, w: nat, q: nat, j: nat) returns (h: nat, v: nat)
    requires Valid(p) && IsRun(p, run) && k < |run| && w < |run[k].workers| && run[k].workers[w].Busy?
    requires var i, answers := run[k].workers[w].unit, run[k].workers[w].answers;
      q < |answers| && p.next(i, answers[..q]).Ask? && p.owner(p.next(i, answers[..q]).key) == Some(j)
    ensures h < k && Record(p, run[h], run[h + 1], v) && run[h].workers[v].unit == j
    ensures var answers := run[k].workers[w].answers;
      var key := p.next(run[k].workers[w].unit, answers[..q]).key;
      var facts := p.next(j, run[h].workers[v].answers).facts;
      (answers[q].Some? <==> key in facts) && (answers[q].Some? ==> answers[q].value == facts[key])
  {
    hide IsRun, Placing, TakenOnce, Contents, Imports, Record, Layered, On;
    var i, answers := run[k].workers[w].unit, run[k].workers[w].answers;
    RunKeeps(p, run, k);
    LookUpsSeeStore(p, run, k, w);
    assert On(run[k].workers, i) by { AtWork(run[k].workers, w); }
    ImportsDone(p, run[k], i, j);
    h, v := FinishedWith(p, run, k, j);
  }

  lemma AtWork(workers: seq<Worker>, w: nat)
    requires w < |workers| && !workers[w].Idle?
    ensures On(workers, workers[w].unit)
  {}

  // In a run that completes, every unit is taken exactly once.
  lemma AnalysedOnce(p: Project, run: seq<State>)
    requires Valid(p) && IsRun(p, run) && Complete(p, run[|run| - 1])
    ensures var s := run[|run| - 1];
      NoRepeats(s.taken) && forall i: nat :: i in s.taken <==> i in Placed(p.levels)
  {
    assert run != [];
    hide Valid, IsRun, Contents, Placed;
    RunKeeps(p, run, |run| - 1);
    var s := run[|run| - 1];
    assert p.levels[..s.wave] == p.levels;
  }

  /****** The sequential run ******/

  ghost function Concat(levels: seq<seq<nat>>): seq<nat> {
    if levels == [] then [] else Concat(levels[..|levels| - 1]) + levels[|levels| - 1]
  }

  // Units analysed one after the other, each against the facts of those before it.
  ghost predicate Sequential(p: Project, order: seq<nat>, store: map<Key, Fact>, results: map<nat, Res>)
    decreases |order|
  {
    if order == [] then store == map[] && results == map[]
    else
      var i := order[|order| - 1];
      exists earlier, before ::
        Sequential(p, order[..|order| - 1], earlier, before) && Extends(p, i, earlier, before, store, results)
  }

  ghost predicate Extends(p: Project, i: nat, earlier: map<Key, Fact>, before: map<nat, Res>, store: map<Key, Fact>,
      results: map<nat, Res>) {
    exists answers ::
      Answered(p, earlier, i, answers) && p.next(i, answers).Finish? &&
      store == earlier + p.next(i, answers).facts && results == before[i := p.next(i, answers).result]
  }

  // Each unit of the sequential run is told what the units before it have left in the store.
  lemma SequentialAnswers(p: Project, order: seq<nat>, store: map<Key, Fact>, results: map<nat, Res>)
    returns (earlier: map<Key, Fact>, before: map<nat, Res>, answers: seq<Option<Fact>>)
    requires Sequential(p, order, store, results) && order != []
    ensures Sequential(p, order[..|order| - 1], earlier, before)
    ensures var i := order[|order| - 1];
      Told(p, earlier, i, answers) && p.next(i, answers).Finish? && store == earlier + p.next(i, answers).facts
        && results == before[i := p.next(i, answers).result]
  {
    hide Answered, Told;
    var i := order[|order| - 1];
    earlier, before :|
      Sequential(p, order[..|order| - 1], earlier, before) && Extends(p, i, earlier, before, store, results);
    answers :| Answered(p, earlier, i, answers) && p.next(i, answers).Finish?
      && store == earlier + p.next(i, answers).facts && results == before[i := p.next(i, answers).result];
    AnsweredIsTold(p, earlier, i, answers);
  }

  // An analysis is a function of the store it runs against.
  lemma {:induction false} SameQuestions(p: Project, store: map<Key, Fact>, i: nat, a: seq<Option<Fact>>,
      b: seq<Option<Fact>>, q: nat)
    requires Answered(p, store, i, a) && Answered(p, store, i, b) && q <= |a| && q <= |b|
    ensures a[..q] == b[..q]
    decreases q
  {
    if q > 0 {
      SameQuestions(p, store, i, a, b, q - 1);
      assert AnsweredAt(p, store, i, a, q - 1) && AnsweredAt(p, store, i, b, q - 1);
      assert a[..q] == a[..q - 1] + [a[q - 1]] && b[..q] == b[..q - 1] + [b[q - 1]];
    }
  }

  lemma Deterministic(p: Project, store: map<Key, Fact>, i: nat, a: seq<Option<Fact>>, b: seq<Option<Fact>>)
    requires Answered(p, store, i, a) && Answered(p, store, i, b) && p.next(i, a).Finish? && p.next(i, b).Finish?
    ensures a == b
  {
    var q := if |a| < |b| then |a| else |b|;
    SameQuestions(p, store, i, a, b, q);
    assert a[..|a|] == a && b[..|b|] == b;
    if |a| <= |b| { NotLonger(p, store, i, a, b); } else { NotLonger(p, store, i, b, a); }
  }

  lemma NotLonger(p: Project, store: map<Key, Fact>, i: nat, a: seq<Option<Fact>>, b: seq<Option<Fact>>)
    requires |a| <= |b| && b[..|a|] == a && Answered(p, store, i, b) && p.next(i, a).Finish?
    ensures a == b
  {
    assert |a| < |b| ==> AnsweredAt(p, store, i, b, |a|);
  }

  // There is at most one sequential outcome.
  lemma {:induction false} SequentialUnique(p: Project, order: seq<nat>, store1: map<Key, Fact>, results1: map<nat,
      Res>, store2: map<Key, Fact>, results2: map<nat, Res>)
    requires Sequential(p, order, store1, results1) && Sequential(p, order, store2, results2)
    ensures store1 == store2 && results1 == results2
    decreases |order|
  {
    hide Answered;
    if order != [] {
      var i, rest := order[|order| - 1], order[..|order| - 1];
      var e1, b1 :| Sequential(p, rest, e1, b1) && Extends(p, i, e1, b1, store1, results1);
      var e2, b2 :| Sequential(p, rest, e2, b2) && Extends(p, i, e2, b2, store2, results2);
      SequentialUnique(p, rest, e1, b1, e2, b2);
      SameExtension(p, i, e1, b1, store1, results1, store2, results2);
    }
  }

  lemma SameExtension(p: Project, i: nat, e: map<Key, Fact>, b: map<nat, Res>, store1: map<Key, Fact>,
      results1: map<nat, Res>, store2: map<Key, Fact>, results2: map<nat, Res>)
    requires Extends(p, i, e, b, store1, results1) && Extends(p, i, e, b, store2, results2)
    ensures store1 == store2 && results1 == results2
  {
    hide Answered;
    var a1 :| Answered(p, e, i, a1) && p.next(i, a1).Finish? && store1 == e + p.next(i, a1).facts
      && results1 == b[i := p.next(i, a1).result];
    var a2 :| Answered(p, e, i, a2) && p.next(i, a2).Finish? && store2 == e + p.next(i, a2).facts
      && results2 == b[i := p.next(i, a2).result];
    Deterministic(p, e, i, a1, a2);
  }

  ghost function OnlyOf(p: Project, store: map<Key, Fact>, units: set<nat>): map<Key, Fact> {
    map k | k in store && p.owner(k).Some? && p.owner(k).value in units :: store[k]
  }

  ghost function ResultsOf(results: map<nat, Res>, units: set<nat>): map<nat, Res> {
    map i | i in results && i in units :: results[i]
  }

  // The final store and results, cut down to the first units of the level order, are those
  // of the sequential run over them.
  lemma {:induction false} PrefixSequential(p: Project, s: State, order: seq<nat>)
    requires Valid(p) && Contents(p, s) && NoRepeats(order)
    requires forall i :: i in order ==> i in s.done
    requires forall a, j: nat :: 0 <= a < |order| && Imports(p, order[a], j) ==> j in order[..a]
    ensures Sequential(p, order, OnlyOf(p, s.store, Members(order)), ResultsOf(s.results, Members(order)))
    decreases |order|
  {
    hide Valid, Imports, Analysed, Answered, OnlyOf, ResultsOf, Extends;
    if order == [] {
      assert OnlyOf(p, s.store, Members(order)) == map[] && ResultsOf(s.results, Members(order)) == map[] by {
        NothingOf(p, s);
      }
    } else {
      var i, rest := order[|order| - 1], order[..|order| - 1];
      assert order == rest + [i];
      AllButLast(p, order);
      PrefixSequential(p, s, rest);
      assert i in order && Analysed(p, s.store, i, s.results[i]);
      LastExtends(p, s, rest, i);
      assert Members(order) == Members(rest) + {i};
    }
  }

  lemma NothingOf(p: Project, s: State)
    ensures OnlyOf(p, s.store, Members([])) == map[] && ResultsOf(s.results, Members([])) == map[]
  {}

  lemma AllButLast(p: Project, order: seq<nat>)
    requires order != [] && NoRepeats(order)
    requires forall a, j: nat :: 0 <= a < |order| && Imports(p, order[a], j) ==> j in order[..a]
    ensures var rest, i := order[..|order| - 1], order[|order| - 1];
      && NoRepeats(rest) && i !in rest && (forall x :: x in rest ==> x in order)
      && (forall a, j: nat :: 0 <= a < |rest| && Imports(p, rest[a], j) ==> j in rest[..a])
      && (forall j: nat :: Imports(p, i, j) ==> j in rest)
  {
    hide Imports;
    var rest := order[..|order| - 1];
    NotBefore(order, |order| - 1);
    assert forall a :: 0 <= a < |rest| ==> rest[a] == order[a] && rest[..a] == order[..a];
  }

  lemma LastExtends(p: Project, s: State, rest: seq<nat>, i: nat)
    requires Valid(p) && i in s.results && Analysed(p, s.store, i, s.results[i]) && i !in rest
    requires forall j: nat :: Imports(p, i, j) ==> j in rest
    requires forall k :: k in s.store ==> p.owner(k).Some?
    ensures var m := Members(rest);
      Extends(p, i, OnlyOf(p, s.store, m), ResultsOf(s.results, m), OnlyOf(p, s.store, m + {i}),
        ResultsOf(s.results, m + {i}))
  {
    hide Valid, Imports, Answered;
    var m := Members(rest);
    var answers :| Answered(p, s.store, i, answers)
      && p.next(i, answers) == Finish(FactsOf(p, s.store, i), s.results[i]);
    assert SameView(p, s.store, OnlyOf(p, s.store, m), i);
    SameAnswers(p, s.store, OnlyOf(p, s.store, m), i, answers);
    assert OnlyOf(p, s.store, m + {i}) == OnlyOf(p, s.store, m) + FactsOf(p, s.store, i);
    assert ResultsOf(s.results, m + {i}) == ResultsOf(s.results, m)[i := s.results[i]];
  }

  lemma {:induction false} ConcatMembers(levels: seq<seq<nat>>, i: nat)
    ensures i in Concat(levels) <==> i in Placed(levels)
    decreases |levels|
  {
    if levels != [] { ConcatMembers(levels[..|levels| - 1], i); }
  }

  lemma {:induction false} ConcatOrder(p: Project, n: nat)
    requires Layered(p.units, p.levels) && n <= |p.levels|
    ensures NoRepeats(Concat(p.levels[..n]))
    ensures forall a, j: nat :: 0 <= a < |Concat(p.levels[..n])| && Imports(p, Concat(p.levels[..n])[a], j) ==>
      j in Concat(p.levels[..n])[..a]
    decreases n
  {
    hide Imports, Layered;
    if n > 0 {
      var l := n - 1;
      ConcatOrder(p, l);
      var order, rest, level := Concat(p.levels[..n]), Concat(p.levels[..l]), p.levels[l];
      assert p.levels[..n][..l] == p.levels[..l];
      assert order == rest + level;
      AppendNoRepeats(p, l);
      forall a, j: nat | 0 <= a < |order| && Imports(p, order[a], j) ensures j in order[..a] {
        if a < |rest| {
          assert order[..a] == rest[..a];
        } else {
          assert order[a] == level[a - |rest|] && order[a] in level;
          ImportEarlier(p, l, order[a], j);
          assert rest == order[..|rest|];
          assert forall x :: x in order[..|rest|] ==> x in order[..a];
        }
      }
    }
  }

  lemma AppendNoRepeats(p: Project, l: nat)
    requires Layered(p.units, p.levels) && l < |p.levels| && NoRepeats(Concat(p.levels[..l]))
    ensures NoRepeats(Concat(p.levels[..l]) + p.levels[l])
  {
    var rest, level := Concat(p.levels[..l]), p.levels[l];
    forall x | x in rest ensures x !in level {
      ConcatMembers(p.levels[..l], x);
      PlacedIn(p.levels[..l], x);
      var m :| 0 <= m < l && x in p.levels[..l][m];
      LevelsApart(p, m, l, x);
    }
    forall a, b | 0 <= a < b < |rest + level| ensures (rest + level)[a] != (rest + level)[b] {
      if a < |rest| <= b { assert rest[a] in rest && level[b - |rest|] in level; }
    }
  }

  lemma ImportEarlier(p: Project, l: nat, i: nat, j: nat)
    requires Layered(p.units, p.levels) && l < |p.levels| && i in p.levels[l] && Imports(p, i, j)
    ensures j in Concat(p.levels[..l])
  {
    hide Layered, IsChain;
    var chain :| IsChain(p.units, chain) && |chain| > 1 && chain[0] == i && chain[|chain| - 1] == j;
    var m := ChainDescends(p.units, p.levels, chain, l);
    assert p.levels[..l][m] == p.levels[m];
    PlacedIn(p.levels[..l], j);
    ConcatMembers(p.levels[..l], j);
  }

  // The scheduling theorem: whatever the interleaving and the number of workers, a run that
  // completes leaves the store and the results of the sequential run in level order.
  lemma ConcurrentIsSequential(p: Project, run: seq<State>)
    requires Valid(p) && IsRun(p, run) && Complete(p, run[|run| - 1])
    ensures Sequential(p, Concat(p.levels), run[|run| - 1].store, run[|run| - 1].results)
  {
    assert run != [];
    hide Valid, IsRun, Imports, Analysed, Placing, TakenOnce, Sequential;
    var s, order := run[|run| - 1], Concat(p.levels);
    RunKeeps(p, run, |run| - 1);
    assert p.levels[..|p.levels|] == p.levels;
    ConcatOrder(p, |p.levels|) by { ValidLayers(p); }
    forall i: nat ensures i in order <==> i in s.done { AllDone(p, s, i); }
    PrefixSequential(p, s, order);
    AllOwnersDone(p, s);
    assert OnlyOf(p, s.store, Members(order)) == s.store;
    assert ResultsOf(s.results, Members(order)) == s.results;
  }

  lemma ValidLayers(p: Project)
    requires Valid(p)
    ensures Layered(p.units, p.levels)
  {}

  lemma AllDone(p: Project, s: State, i: nat)
    requires Placing(p, s) && Complete(p, s)
    ensures i in Concat(p.levels) <==> i in s.done
  {
    ConcatMembers(p.levels, i);
    assert p.levels[..|p.levels|] == p.levels;
  }

  lemma AllOwnersDone(p: Project, s: State)
    requires Placing(p, s) && Contents(p, s) && Complete(p, s)
    ensures forall k :: k in s.store ==> p.owner(k).Some? && p.owner(k).value in s.done
  {
    hide Placed, Analysed, Answered;
    forall i: nat ensures HasRecorded(s, i) ==> i in s.done { RecordedIsOn(s, i); }
  }

  lemma RecordedIsOn(s: State, i: nat)
    ensures HasRecorded(s, i) ==> i in s.done || On(s.workers, i)
  {}

  // Two complete runs, with whatever workers, end alike.
  lemma RunsAgree(p: Project, a: seq<State>, b: seq<State>)
    requires Valid(p) && IsRun(p, a) && Complete(p, a[|a| - 1]) && IsRun(p, b) && Complete(p, b[|b| - 1])
    ensures a[|a| - 1].store == b[|b| - 1].store && a[|a| - 1].results == b[|b| - 1].results
  {
    assert a != [] && b != [];
    hide Valid, IsRun, Sequential;
    ConcurrentIsSequential(p, a);
    ConcurrentIsSequential(p, b);
    SequentialUnique(p, Concat(p.levels), a[|a| - 1].store, a[|a| - 1].results, b[|b| - 1].store, b[|b| - 1].results);
  }

  /****** Two packages ******/

  // Package 1 imports package 0 and asks it for fact 7; package 0 finishes with it.
  const TWO := Project(
    [Unit(0, [], map[]), Unit(1, [0], map[])], [[0], [1]],
    (k: Key) => if k == 7 then Some(0) else None,
    (i: nat, answers: seq<Option<Fact>>) =>
      if i == 0 then Finish(map[7 := 3], 0)
      else if i == 1 && answers == [] then Ask(7)
      else Finish(map[], if answers != [] && answers[0] == Some(3) then 1 else 0))

  lemma TwoDeps(i: nat, j: nat)
    ensures Dep(TWO.units, i, j) <==> i == 1 && j == 0
  {
    assert 0 in TWO.units[1].imports;
  }

  lemma TwoWithin()
    ensures DistinctPaths(TWO.units) && Within(TWO.units, TWO.levels)
  {
    assert TWO.levels[0] == [0] && TWO.levels[1] == [1];
  }

  lemma TwoDependencyFirst()
    ensures DependencyFirst(TWO.units, TWO.levels)
  {
    hide Dep;
    var u, ls := TWO.units, TWO.levels;
    forall i: nat, j: nat ensures Dep(u, i, j) <==> i == 1 && j == 0 { TwoDeps(i, j); }
    assert ls[..1] == [[0]] && [[0]][..0] == [] && Placed([]) == {};
    assert Placed(ls[..1]) == Placed([]) + Members([0]);
    assert 0 in ls[0] && DependsOn(u, 1, ls[0]);
  }

  lemma TwoImports()
    ensures Imports(TWO, 1, 0)
  {
    TwoDeps(1, 0);
    var chain: seq<nat> := [1, 0];
    assert IsChain(TWO.units, chain);
  }

  lemma TwoIsValid()
    ensures Valid(TWO)
  {
    hide Imports, Within, DependencyFirst;
    TwoWithin();
    TwoDependencyFirst();
    TwoImports();
  }

  // One worker's run over both, state by state.
  function TwoStates(): seq<State> {
    var idle, told := [Idle], Busy(1, [Some(3)]);
    [State(0, [0], idle, map[], map[], [], {}),
     State(0, [], [Busy(0, [])], map[], map[], [0], {}),
     State(0, [], [Recorded(0, 0)], map[7 := 3], map[], [0], {}),
     State(0, [], idle, map[7 := 3], map[0 := 0], [0], {0}),
     State(1, [1], idle, map[7 := 3], map[0 := 0], [0], {0}),
     State(1, [], [Busy(1, [])], map[7 := 3], map[0 := 0], [0, 1], {0}),
     State(1, [], [told], map[7 := 3], map[0 := 0], [0, 1], {0}),
     State(1, [], [Recorded(1, 1)], map[7 := 3], map[0 := 0], [0, 1], {0}),
     State(1, [], idle, map[7 := 3], map[0 := 0, 1 := 1], [0, 1], {0, 1}),
     State(2, [], idle, map[7 := 3], map[0 := 0, 1 := 1], [0, 1], {0, 1})]
  }

  lemma TwoTake(k: nat)
    requires k == 0 || k == 4
    ensures Step(TWO, TwoStates()[k], TwoStates()[k + 1])
  {
    hide LookUp, Record, WriteResult, NextWave;
    assert Take(TWO, TwoStates()[k], TwoStates()[k + 1], 0);
  }

  lemma TwoLookUp()
    ensures Step(TWO, TwoStates()[5], TwoStates()[6])
  {
    hide Take, Record, WriteResult, NextWave;
    var s, none: seq<Option<Fact>> := TwoStates()[5], [];
    assert s.workers[0].answers == none && none + [Find(s.store, 7)] == [Some(3)];
    assert LookUp(TWO, s, TwoStates()[6], 0);
  }

  lemma TwoRecord(k: nat)
    requires k == 1 || k == 6
    ensures Step(TWO, TwoStates()[k], TwoStates()[k + 1])
  {
    hide Take, LookUp, WriteResult, NextWave;
    assert Record(TWO, TwoStates()[k], TwoStates()[k + 1], 0);
  }

  lemma TwoWrite(k: nat)
    requires k == 2 || k == 7
    ensures Step(TWO, TwoStates()[k], TwoStates()[k + 1])
  {
    hide Take, LookUp, Record, NextWave;
    assert WriteResult(TWO, TwoStates()[k], TwoStates()[k + 1], 0);
  }

  lemma TwoNext(k: nat)
    requires k == 3 || k == 8
    ensures Step(TWO, TwoStates()[k], TwoStates()[k + 1])
  {
    hide Take, LookUp, Record, WriteResult;
    assert NextWave(TWO, TwoStates()[k], TwoStates()[k + 1]);
  }

  lemma TwoStep(k: nat)
    requires k < 9
    ensures k + 1 < |TwoStates()| && Step(TWO, TwoStates()[k], TwoStates()[k + 1])
  {
    hide Step;
    if k == 0 || k == 4 { TwoTake(k); }
    else if k == 5 { TwoLookUp(); }
    else if k == 1 || k == 6 { TwoRecord(k); }
    else if k == 2 || k == 7 { TwoWrite(k); }
    else { TwoNext(k); }
  }

  // It completes, and package 1 has seen the fact of package 0.
  lemma TwoCompletes()
    ensures IsRun(TWO, TwoStates()) && Complete(TWO, TwoStates()[9]) && TwoStates()[9].results[1] == 1
  {
    hide Step, TwoStates;
    assert |TwoStates()| == 10 && Init(TWO, TwoStates()[0]) && Complete(TWO, TwoStates()[9])
      && 1 in TwoStates()[9].results && TwoStates()[9].results[1] == 1 by { TwoEnds(); }
    forall k | 0 <= k < 9 ensures Step(TWO, TwoStates()[k], TwoStates()[k + 1]) { TwoStep(k); }
  }

  lemma TwoEnds()
    ensures |TwoStates()| == 10 && Init(TWO, TwoStates()[0]) && Complete(TWO, TwoStates()[9])
      && 1 in TwoStates()[9].results && TwoStates()[9].results[1] == 1
  {}
}
