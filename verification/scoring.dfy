/**
 The scoring engine: answers and the question catalog in, one BoykoResult out.

 The symptom/phase mapping tables are parameters of the engine:
 - `symptoms`: the symptom-to-question-ids table, as the ordered list of its entries;
 - `phases`: the phase-to-symptom-names table, as the ordered list of its entries;
 - `maxScores`: the symptom-to-maximum-score table.

 `Score` is the reference definition (each phase total is the sum of the scores of
 the symptoms that resolve to that phase); `CalculateBoykoResult` is the
 accumulating algorithm of `calculateBoykoResult`, proved equal to it.
 */
module Scoring {
  import opened Wrappers
  import opened BoykoTypes
  import opened Classify

  type SymptomEntry = (string, seq<int>)
  type PhaseEntry = (Phase, seq<string>)

  datatype Tables = Tables(symptoms: seq<SymptomEntry>, phases: seq<PhaseEntry>, maxScores: map<string, int>)

  /** Every symptom of the question table has an entry in the maximum-score table. */
  predicate HasMaxScores(t: Tables) {
    Covered(t.symptoms, t.maxScores)
  }

  predicate Covered(entries: seq<SymptomEntry>, maxScores: map<string, int>) {
    forall e | e in entries :: e.0 in maxScores
  }

  /** No symptom name occurs twice in the question table (true of any object's keys). */
  predicate DistinctNames(entries: seq<SymptomEntry>) {
    forall i, j :: 0 <= i < j < |entries| ==> entries[i].0 != entries[j].0
  }

  predicate NoDuplicates(ids: seq<int>) {
    forall i, j :: 0 <= i < j < |ids| ==> ids[i] != ids[j]
  }

  /** All question ids of the table, in table order. */
  function AllIds(entries: seq<SymptomEntry>): (ids: seq<int>)
    ensures |entries| > 0 ==> ids == AllIds(entries[..|entries| - 1]) + entries[|entries| - 1].1
  {
    if |entries| == 0 then [] else AllIds(entries[..|entries| - 1]) + entries[|entries| - 1].1
  }

  // ---------------------------------------------------------------------------
  // Catalog index
  // ---------------------------------------------------------------------------

  /** The catalog indexed by id; when two questions share an id the later one wins. */
  function CatalogIndex(qs: seq<Question>): (m: map<int, Question>)
    ensures m.Keys == set q | q in qs :: q.id
    ensures forall id :: id in m ==> m[id] in qs && m[id].id == id
    ensures |m| <= |qs|
  {
    if |qs| == 0 then map[]
    else
      var m0 := CatalogIndex(qs[..|qs| - 1]);
      var q := qs[|qs| - 1];
      assert qs == qs[..|qs| - 1] + [q];
      m0[q.id := q]
  }

  /** The question an id resolves to is the last catalog entry carrying that id. */
  lemma {:induction false} CatalogIndexLastWins(qs: seq<Question>, k: nat)
    requires k < |qs|
    requires forall k' :: k < k' < |qs| ==> qs[k'].id != qs[k].id
    ensures qs[k].id in CatalogIndex(qs) && CatalogIndex(qs)[qs[k].id] == qs[k]
  {
    if k < |qs| - 1 {
      var init := qs[..|qs| - 1];
      assert init[k] == qs[k];
      CatalogIndexLastWins(init, k);
    }
  }

  lemma CatalogIndexStep(qs: seq<Question>, k: nat)
    requires k < |qs|
    ensures CatalogIndex(qs[..k + 1]) == CatalogIndex(qs[..k])[qs[k].id := qs[k]]
  {
    assert qs[..k + 1][..k] == qs[..k];
  }

  /** The `reduce` that builds the id index. */
  method BuildIndex(qs: seq<Question>) returns (m: map<int, Question>)
    ensures m == CatalogIndex(qs)
  {
    m := map[];
    var k := 0;
    while k < |qs|
      invariant 0 <= k <= |qs|
      invariant m == CatalogIndex(qs[..k])
    {
      CatalogIndexStep(qs, k);
      m := m[qs[k].id := qs[k]];
      k := k + 1;
    }
    assert qs[..k] == qs;
  }

  // ---------------------------------------------------------------------------
  // Item and symptom scores
  // ---------------------------------------------------------------------------

  /**
   The contribution of question `id`: a direct item scores on "yes", a reverse
   item on "no"; an unanswered id or one absent from the catalog scores nothing.
   */
  function ItemScore(index: map<int, Question>, answers: map<int, bool>, id: int): (s: nat)
    ensures s <= 1
    ensures s == 1 <==> id in index && id in answers && answers[id] != index[id].IsReverse()
    ensures id !in answers || id !in index ==> s == 0
  {
    if id in index && id in answers then
      if index[id].IsReverse() then
        (if answers[id] == false then 1 else 0)
      else
        (if answers[id] == true then 1 else 0)
    else 0
  }

  /** The score of a symptom whose questions are `ids`. */
  function SymptomScore(index: map<int, Question>, answers: map<int, bool>, ids: seq<int>): (s: nat)
    ensures s <= |ids|
  {
    if |ids| == 0 then 0
    else SymptomScore(index, answers, ids[..|ids| - 1]) + ItemScore(index, answers, ids[|ids| - 1])
  }

  /** The inner `forEach` over a symptom's question ids. */
  method ScoreSymptom(index: map<int, Question>, answers: map<int, bool>, ids: seq<int>) returns (score: nat)
    ensures score == SymptomScore(index, answers, ids)
  {
    score := 0;
    var k := 0;
    while k < |ids|
      invariant 0 <= k <= |ids|
      invariant score == SymptomScore(index, answers, ids[..k])
    {
      assert ids[..k + 1][..k] == ids[..k];
      var id := ids[k];
      if id in index && id in answers {
        if index[id].IsReverse() {
          if answers[id] == false { score := score + 1; }
        } else {
          if answers[id] == true { score := score + 1; }
        }
      }
      k := k + 1;
    }
    assert ids[..k] == ids;
  }

  /** A symptom reaches its item count exactly when every one of its items scores. */
  lemma {:induction false} SymptomScoreFull(index: map<int, Question>, answers: map<int, bool>, ids: seq<int>)
    ensures SymptomScore(index, answers, ids) == |ids| <==>
      forall k :: 0 <= k < |ids| ==> ItemScore(index, answers, ids[k]) == 1
  {
    if |ids| > 0 {
      var init := ids[..|ids| - 1];
      SymptomScoreFull(index, answers, init);
      assert forall k :: 0 <= k < |init| ==> init[k] == ids[k];
    }
  }

  /** Without answers every symptom scores 0. */
  lemma {:induction false} SymptomScoreNoAnswers(index: map<int, Question>, ids: seq<int>)
    ensures SymptomScore(index, map[], ids) == 0
  {
    if |ids| > 0 {
      SymptomScoreNoAnswers(index, ids[..|ids| - 1]);
    }
  }

  /** Symptom scores add up over a concatenation of id lists. */
  lemma {:induction false} SymptomScoreAppend(index: map<int, Question>, answers: map<int, bool>, a: seq<int>, b: seq<int>)
    ensures SymptomScore(index, answers, a + b) == SymptomScore(index, answers, a) + SymptomScore(index, answers, b)
    decreases |b|
  {
    if |b| > 0 {
      var b0 := b[..|b| - 1];
      assert (a + b)[..|a + b| - 1] == a + b0;
      SymptomScoreAppend(index, answers, a, b0);
    } else {
      assert a + b == a;
    }
  }

  /** Over distinct ids, the score is at most the number of those ids present in the catalog. */
  lemma {:induction false} SymptomScoreDistinctBound(index: map<int, Question>, answers: map<int, bool>, ids: seq<int>)
    requires NoDuplicates(ids)
    ensures SymptomScore(index, answers, ids) <= |set i | i in ids && i in index|
  {
    if |ids| > 0 {
      var init := ids[..|ids| - 1];
      var x := ids[|ids| - 1];
      assert NoDuplicates(init);
      SymptomScoreDistinctBound(index, answers, init);
      var s0 := set i | i in init && i in index;
      var s1 := set i | i in ids && i in index;
      assert x !in init;
      if x in index {
        assert s1 == s0 + {x};
      } else {
        assert s1 == s0;
      }
    }
  }

  // ---------------------------------------------------------------------------
  // Phase resolution
  // ---------------------------------------------------------------------------

  /** The first phase whose symptom list contains `name`, as the `for ... break` scan finds it. */
  function FindPhase(phases: seq<PhaseEntry>, name: string): (r: Option<Phase>)
    ensures r.None? <==> forall k :: 0 <= k < |phases| ==> name !in phases[k].1
    ensures r.Some? ==>
      exists k :: 0 <= k < |phases| && phases[k].0 == r.value && name in phases[k].1 &&
        forall k' :: 0 <= k' < k ==> name !in phases[k'].1
  {
    if |phases| == 0 then None
    else if name in phases[0].1 then Some(phases[0].0)
    else
      var r := FindPhase(phases[1..], name);
      assert forall k :: 0 < k < |phases| ==> phases[1..][k - 1] == phases[k];
      r
  }

  /** The `for ... break` scan of the phase table in `calculateBoykoResult`, stopping at the first match. */
  method LookupPhase(phases: seq<PhaseEntry>, name: string) returns (phase: Option<Phase>)
    ensures phase == FindPhase(phases, name)
  {
    phase := None;
    var k := 0;
    while k < |phases|
      invariant 0 <= k <= |phases|
      invariant forall i :: 0 <= i < k ==> name !in phases[i].1
      invariant FindPhase(phases, name) == FindPhase(phases[k..], name)
    {
      if name in phases[k].1 {
        phase := Some(phases[k].0);
        break;
      }
      assert phases[k..][1..] == phases[k + 1..];
      k := k + 1;
    }
  }

  /** `p` is a key of the phase table. */
  predicate IsKey(phases: seq<PhaseEntry>, p: Phase) {
    exists k :: 0 <= k < |phases| && phases[k].0 == p
  }

  // ---------------------------------------------------------------------------
  // Reference definition
  // ---------------------------------------------------------------------------

  /** The SymptomResult recorded for a symptom entry. */
  function SymptomOf(e: SymptomEntry, maxScores: map<string, int>, index: map<int, Question>, answers: map<int, bool>): (sr: SymptomResult)
    requires e.0 in maxScores
    ensures sr.score <= |e.1|
    ensures sr.maxScore == maxScores[e.0]
  {
    var s := SymptomScore(index, answers, e.1);
    SymptomResult(s, SymptomLevel(s, maxScores[e.0]), maxScores[e.0])
  }

  /** Sum of the scores of the symptoms among `entries` that resolve to phase `p`. */
  function PhaseTotal(entries: seq<SymptomEntry>, phases: seq<PhaseEntry>, index: map<int, Question>, answers: map<int, bool>, p: Phase): nat
  {
    if |entries| == 0 then 0
    else
      var e := entries[|entries| - 1];
      PhaseTotal(entries[..|entries| - 1], phases, index, answers, p)
        + (if FindPhase(phases, e.0) == Some(p) then SymptomScore(index, answers, e.1) else 0)
  }

  /** The symptom map of phase `p`: one entry per symptom resolving to `p`. */
  function PhaseSymptoms(entries: seq<SymptomEntry>, phases: seq<PhaseEntry>, maxScores: map<string, int>,
                         index: map<int, Question>, answers: map<int, bool>, p: Phase): (m: map<string, SymptomResult>)
    requires Covered(entries, maxScores)
    ensures m.Keys <= maxScores.Keys
  {
    if |entries| == 0 then map[]
    else
      var init := entries[..|entries| - 1];
      var e := entries[|entries| - 1];
      var m0 := PhaseSymptoms(init, phases, maxScores, index, answers, p);
      if FindPhase(phases, e.0) == Some(p) then m0[e.0 := SymptomOf(e, maxScores, index, answers)] else m0
  }

  function PhaseResultFor(t: Tables, index: map<int, Question>, answers: map<int, bool>, p: Phase): PhaseResult
    requires HasMaxScores(t)
  {
    var total := PhaseTotal(t.symptoms, t.phases, index, answers, p);
    PhaseResult(total, PhaseSymptoms(t.symptoms, t.phases, t.maxScores, index, answers, p), PhaseLevel(total, p), PhaseMaxScore(p))
  }

  /** The result of scoring `answers` against the catalog `questions` with tables `t`. */
  function Score(answers: map<int, bool>, questions: seq<Question>, t: Tables): (r: BoykoResult)
    requires HasMaxScores(t)
    ensures r.overallScore == r.tension.total + r.resistance.total + r.exhaustion.total
    ensures r.burnoutLevel == OverallBurnoutLevel(r.overallScore)
    ensures forall p :: r.Get(p).level == PhaseLevel(r.Get(p).total, p) && r.Get(p).maxScore == PhaseMaxScore(p)
    ensures forall p :: r.Get(p).symptoms.Keys <= t.maxScores.Keys
  {
    var index := CatalogIndex(questions);
    var te := PhaseResultFor(t, index, answers, Tension);
    var re := PhaseResultFor(t, index, answers, Resistance);
    var ex := PhaseResultFor(t, index, answers, Exhaustion);
    var overall := te.total + re.total + ex.total;
    BoykoResult(te, re, ex, overall, OverallBurnoutLevel(overall))
  }

  // ---------------------------------------------------------------------------
  // The algorithm as written
  // ---------------------------------------------------------------------------

  /** A phase that is no key of the phase table receives no symptom, so its total is 0. */
  lemma {:induction false} UnlistedPhaseIsEmpty(entries: seq<SymptomEntry>, phases: seq<PhaseEntry>,
                                              index: map<int, Question>, answers: map<int, bool>, p: Phase)
    requires !IsKey(phases, p)
    ensures PhaseTotal(entries, phases, index, answers, p) == 0
  {
    if |entries| > 0 {
      UnlistedPhaseIsEmpty(entries[..|entries| - 1], phases, index, answers, p);
      var r := FindPhase(phases, entries[|entries| - 1].0);
      if r == Some(p) {
        assert IsKey(phases, p);
      }
    }
  }

  /** The initial result of `calculateBoykoResult`: zero totals, empty symptom maps, every level lowest. */
  function InitialResult(): (r: BoykoResult)
    ensures forall p :: r.Get(p) == PhaseResult(0, map[], NotFormed, PhaseMaxScore(p))
    ensures r.overallScore == 0 && r.burnoutLevel == OverallBurnoutLevel(0)
  {
    BoykoResult(
      PhaseResult(0, map[], NotFormed, PhaseMaxScore(Tension)),
      PhaseResult(0, map[], NotFormed, PhaseMaxScore(Resistance)),
      PhaseResult(0, map[], NotFormed, PhaseMaxScore(Exhaustion)),
      0, Low)
  }

  /** One step of the symptom `forEach`: record the symptom under the phase it resolves to, if any. */
  function AddSymptom(r: BoykoResult, e: SymptomEntry, t: Tables, index: map<int, Question>, answers: map<int, bool>): (r': BoykoResult)
    requires e.0 in t.maxScores
    ensures FindPhase(t.phases, e.0).None? ==> r' == r
    ensures forall p :: FindPhase(t.phases, e.0) != Some(p) ==> r'.Get(p) == r.Get(p)
    ensures forall p :: FindPhase(t.phases, e.0) == Some(p) ==>
      && r'.Get(p).total == r.Get(p).total + SymptomScore(index, answers, e.1)
      && r'.Get(p).symptoms == r.Get(p).symptoms[e.0 := SymptomOf(e, t.maxScores, index, answers)]
      && r'.Get(p).level == r.Get(p).level && r'.Get(p).maxScore == r.Get(p).maxScore
    ensures r'.overallScore == r.overallScore && r'.burnoutLevel == r.burnoutLevel
  {
    match FindPhase(t.phases, e.0)
    case None => r
    case Some(p) =>
      var pr := r.Get(p);
      r.With(p, pr.(symptoms := pr.symptoms[e.0 := SymptomOf(e, t.maxScores, index, answers)],
                    total := pr.total + SymptomScore(index, answers, e.1)))
  }

  /** The result after the symptom `forEach` has processed `entries`. */
  function Accumulated(entries: seq<SymptomEntry>, t: Tables, index: map<int, Question>, answers: map<int, bool>): (r: BoykoResult)
    requires Covered(entries, t.maxScores)
    ensures forall p :: r.Get(p).level == NotFormed && r.Get(p).maxScore == PhaseMaxScore(p)
    ensures r.overallScore == 0 && r.burnoutLevel == Low
  {
    if |entries| == 0 then InitialResult()
    else
      var init := entries[..|entries| - 1];
      assert forall e | e in init :: e in entries;
      AddSymptom(Accumulated(init, t, index, answers), entries[|entries| - 1], t, index, answers)
  }

  /** Accumulating symptom by symptom yields the reference phase totals and symptom maps. */
  lemma {:induction false} AccumulatedIsReference(entries: seq<SymptomEntry>, t: Tables, index: map<int, Question>, answers: map<int, bool>)
    requires Covered(entries, t.maxScores)
    ensures forall p :: Accumulated(entries, t, index, answers).Get(p) == PhaseResult(
      PhaseTotal(entries, t.phases, index, answers, p),
      PhaseSymptoms(entries, t.phases, t.maxScores, index, answers, p),
      NotFormed, PhaseMaxScore(p))
  {
    if |entries| > 0 {
      var init := entries[..|entries| - 1];
      assert forall e | e in init :: e in entries;
      AccumulatedIsReference(init, t, index, answers);
    }
  }

  /** The body of the `forEach` over the symptom table, for one entry. */
  method AddSymptomStep(r0: BoykoResult, e: SymptomEntry, index: map<int, Question>, answers: map<int, bool>, t: Tables) returns (r: BoykoResult)
    requires e.0 in t.maxScores
    ensures r == AddSymptom(r0, e, t, index, answers)
  {
    r := r0;
    var name := e.0;
    var score := ScoreSymptom(index, answers, e.1);
    var phase := LookupPhase(t.phases, name);
    if phase.Some? {
      var p := phase.value;
      var pr := r.Get(p);
      var maxScore := t.maxScores[name];
      r := r.With(p, pr.(symptoms := pr.symptoms[name := SymptomResult(score, SymptomLevel(score, maxScore), maxScore)],
                         total := pr.total + score));
    }
  }

  /** The `forEach` over the symptom table: each symptom's score is added to the phase it resolves to. */
  method AccumulateSymptoms(index: map<int, Question>, answers: map<int, bool>, t: Tables) returns (r: BoykoResult)
    requires HasMaxScores(t)
    ensures forall p :: r.Get(p) == PhaseResult(
      PhaseTotal(t.symptoms, t.phases, index, answers, p),
      PhaseSymptoms(t.symptoms, t.phases, t.maxScores, index, answers, p),
      NotFormed, PhaseMaxScore(p))
  {
    r := InitialResult();
    var entries := t.symptoms;
    var k := 0;
    while k < |entries|
      invariant 0 <= k <= |entries|
      invariant Covered(entries[..k], t.maxScores)
      invariant r == Accumulated(entries[..k], t, index, answers)
    {
      assert entries[..k + 1][..k] == entries[..k];
      assert entries[..k + 1] == entries[..k] + [entries[k]];
      r := AddSymptomStep(r, entries[k], index, answers, t);
      k := k + 1;
    }
    assert entries[..k] == entries;
    AccumulatedIsReference(entries, t, index, answers);
  }

  /** The `forEach` over the keys of the phase table, setting each listed phase's level. */
  method AssignPhaseLevels(r0: BoykoResult, phases: seq<PhaseEntry>) returns (r: BoykoResult)
    ensures forall p :: r.Get(p) == r0.Get(p).(level := if IsKey(phases, p) then PhaseLevel(r0.Get(p).total, p) else r0.Get(p).level)
    ensures r.overallScore == r0.overallScore && r.burnoutLevel == r0.burnoutLevel
  {
    r := r0;
    var j := 0;
    while j < |phases|
      invariant 0 <= j <= |phases|
      invariant forall p :: r.Get(p) == r0.Get(p).(level := if IsKey(phases[..j], p) then PhaseLevel(r0.Get(p).total, p) else r0.Get(p).level)
      invariant r.overallScore == r0.overallScore && r.burnoutLevel == r0.burnoutLevel
    {
      var p := phases[j].0;
      assert phases[..j + 1][j].0 == p;
      assert forall i :: 0 <= i < j ==> phases[..j + 1][i] == phases[..j][i];
      forall q
        ensures IsKey(phases[..j + 1], q) <==> IsKey(phases[..j], q) || q == p
      {
        if IsKey(phases[..j], q) {
          var k :| 0 <= k < j && phases[..j][k].0 == q;
          assert phases[..j + 1][k].0 == q;
        }
        if IsKey(phases[..j + 1], q) && q != p {
          var k :| 0 <= k < j + 1 && phases[..j + 1][k].0 == q;
          assert phases[..j][k].0 == q;
        }
      }
      r := r.With(p, r.Get(p).(level := PhaseLevel(r.Get(p).total, p)));
      j := j + 1;
    }
    assert phases[..j] == phases;
  }

  /**
   The algorithm of `calculateBoykoResult`: start from zero totals, add each symptom to the phase it
   resolves to, then set the level of every phase key, then the overall score and level.
   */
  method CalculateBoykoResult(answers: map<int, bool>, questions: seq<Question>, t: Tables) returns (r: BoykoResult)
    requires HasMaxScores(t)
    ensures r == Score(answers, questions, t)
  {
    var index := BuildIndex(questions);
    r := AccumulateSymptoms(index, answers, t);
    r := AssignPhaseLevels(r, t.phases);
    forall p | !IsKey(t.phases, p)
      ensures PhaseLevel(PhaseTotal(t.symptoms, t.phases, index, answers, p), p) == NotFormed
    {
      UnlistedPhaseIsEmpty(t.symptoms, t.phases, index, answers, p);
    }
    r := r.(overallScore := r.tension.total + r.resistance.total + r.exhaustion.total);
    r := r.(burnoutLevel := OverallBurnoutLevel(r.overallScore));
    assert r.tension == r.Get(Tension) && r.resistance == r.Get(Resistance) && r.exhaustion == r.Get(Exhaustion);
  }

  // ---------------------------------------------------------------------------
  // Properties of the reference definition
  // ---------------------------------------------------------------------------

  /** Sum of the scores of the symptoms that resolve to some phase. */
  function ResolvedTotal(entries: seq<SymptomEntry>, phases: seq<PhaseEntry>, index: map<int, Question>, answers: map<int, bool>): nat
  {
    if |entries| == 0 then 0
    else
      var e := entries[|entries| - 1];
      ResolvedTotal(entries[..|entries| - 1], phases, index, answers)
        + (if FindPhase(phases, e.0).Some? then SymptomScore(index, answers, e.1) else 0)
  }

  lemma {:induction false} PhaseTotalsPartition(entries: seq<SymptomEntry>, phases: seq<PhaseEntry>, index: map<int, Question>, answers: map<int, bool>)
    ensures PhaseTotal(entries, phases, index, answers, Tension)
          + PhaseTotal(entries, phases, index, answers, Resistance)
          + PhaseTotal(entries, phases, index, answers, Exhaustion)
         == ResolvedTotal(entries, phases, index, answers)
  {
    if |entries| > 0 {
      PhaseTotalsPartition(entries[..|entries| - 1], phases, index, answers);
    }
  }

  lemma {:induction false} ResolvedTotalBound(entries: seq<SymptomEntry>, phases: seq<PhaseEntry>, index: map<int, Question>, answers: map<int, bool>)
    ensures ResolvedTotal(entries, phases, index, answers) <= SymptomScore(index, answers, AllIds(entries))
  {
    if |entries| > 0 {
      var init := entries[..|entries| - 1];
      ResolvedTotalBound(init, phases, index, answers);
      SymptomScoreAppend(index, answers, AllIds(init), entries[|entries| - 1].1);
    }
  }

  /**
   The overall score is the sum of the scores of all symptoms that resolve to a
   phase; a symptom listed under no phase contributes nothing.
   */
  lemma OverallIsResolvedSum(answers: map<int, bool>, questions: seq<Question>, t: Tables)
    requires HasMaxScores(t)
    ensures Score(answers, questions, t).overallScore == ResolvedTotal(t.symptoms, t.phases, CatalogIndex(questions), answers)
  {
    PhaseTotalsPartition(t.symptoms, t.phases, CatalogIndex(questions), answers);
  }

  /** The overall score never exceeds the number of question ids in the symptom table. */
  lemma OverallBoundedByItems(answers: map<int, bool>, questions: seq<Question>, t: Tables)
    requires HasMaxScores(t)
    ensures Score(answers, questions, t).overallScore <= |AllIds(t.symptoms)|
  {
    OverallIsResolvedSum(answers, questions, t);
    ResolvedTotalBound(t.symptoms, t.phases, CatalogIndex(questions), answers);
  }

  /** When no question id appears twice in the symptom table, the overall score is at most the catalog size. */
  lemma OverallBoundedByCatalog(answers: map<int, bool>, questions: seq<Question>, t: Tables)
    requires HasMaxScores(t)
    requires NoDuplicates(AllIds(t.symptoms))
    ensures Score(answers, questions, t).overallScore <= |questions|
  {
    var index := CatalogIndex(questions);
    var ids := AllIds(t.symptoms);
    OverallIsResolvedSum(answers, questions, t);
    ResolvedTotalBound(t.symptoms, t.phases, index, answers);
    SymptomScoreDistinctBound(index, answers, ids);
    var present := set i | i in ids && i in index;
    assert present <= index.Keys;
    SubsetCardinality(present, index.Keys);
  }

  lemma SubsetCardinality<T>(a: set<T>, b: set<T>)
    requires a <= b
    ensures |a| <= |b|
  {
    assert b == a + (b - a);
  }

  lemma {:induction false} PhaseTotalNoAnswers(entries: seq<SymptomEntry>, phases: seq<PhaseEntry>, index: map<int, Question>, p: Phase)
    ensures PhaseTotal(entries, phases, index, map[], p) == 0
  {
    if |entries| > 0 {
      PhaseTotalNoAnswers(entries[..|entries| - 1], phases, index, p);
      SymptomScoreNoAnswers(index, entries[|entries| - 1].1);
    }
  }

  lemma {:induction false} PhaseSymptomsNoAnswers(entries: seq<SymptomEntry>, phases: seq<PhaseEntry>, maxScores: map<string, int>,
                                                index: map<int, Question>, p: Phase)
    requires Covered(entries, maxScores)
    ensures forall name :: name in PhaseSymptoms(entries, phases, maxScores, index, map[], p) ==>
      PhaseSymptoms(entries, phases, maxScores, index, map[], p)[name] == SymptomResult(0, NotFormed, maxScores[name])
  {
    if |entries| > 0 {
      PhaseSymptomsNoAnswers(entries[..|entries| - 1], phases, maxScores, index, p);
      SymptomScoreNoAnswers(index, entries[|entries| - 1].1);
    }
  }

  /** An empty answer set scores 0 everywhere: every symptom and phase is not formed and the level is low. */
  lemma EmptyAnswers(questions: seq<Question>, t: Tables)
    requires HasMaxScores(t)
    ensures var r := Score(map[], questions, t);
      && r.overallScore == 0
      && r.burnoutLevel == Low
      && (forall p :: r.Get(p).total == 0 && r.Get(p).level == NotFormed)
      && (forall p, name :: name in r.Get(p).symptoms ==>
            r.Get(p).symptoms[name].score == 0 && r.Get(p).symptoms[name].level == NotFormed)
  {
    var index := CatalogIndex(questions);
    forall p
      ensures PhaseTotal(t.symptoms, t.phases, index, map[], p) == 0
      ensures forall name :: name in PhaseSymptoms(t.symptoms, t.phases, t.maxScores, index, map[], p) ==>
        PhaseSymptoms(t.symptoms, t.phases, t.maxScores, index, map[], p)[name] == SymptomResult(0, NotFormed, t.maxScores[name])
    {
      PhaseTotalNoAnswers(t.symptoms, t.phases, index, p);
      PhaseSymptomsNoAnswers(t.symptoms, t.phases, t.maxScores, index, p);
    }
  }

  lemma {:induction false} DroppedEntryTotal(s1: seq<SymptomEntry>, e: SymptomEntry, s2: seq<SymptomEntry>, phases: seq<PhaseEntry>,
                                           index: map<int, Question>, answers: map<int, bool>, p: Phase)
    requires FindPhase(phases, e.0).None?
    ensures PhaseTotal(s1 + [e] + s2, phases, index, answers, p) == PhaseTotal(s1 + s2, phases, index, answers, p)
    decreases |s2|
  {
    if |s2| == 0 {
      assert s1 + [e] + s2 == s1 + [e] && (s1 + [e])[..|s1|] == s1;
      assert s1 + s2 == s1;
    } else {
      var init := s2[..|s2| - 1];
      DroppedEntryTotal(s1, e, init, phases, index, answers, p);
      assert (s1 + [e] + s2)[..|s1 + [e] + s2| - 1] == s1 + [e] + init;
      assert (s1 + s2)[..|s1 + s2| - 1] == s1 + init;
    }
  }

  lemma {:induction false} DroppedEntrySymptoms(s1: seq<SymptomEntry>, e: SymptomEntry, s2: seq<SymptomEntry>, phases: seq<PhaseEntry>,
                                              maxScores: map<string, int>, index: map<int, Question>, answers: map<int, bool>, p: Phase)
    requires Covered(s1 + [e] + s2, maxScores)
    requires FindPhase(phases, e.0).None?
    ensures Covered(s1 + s2, maxScores)
    ensures PhaseSymptoms(s1 + [e] + s2, phases, maxScores, index, answers, p) == PhaseSymptoms(s1 + s2, phases, maxScores, index, answers, p)
    decreases |s2|
  {
    if |s2| == 0 {
      assert s1 + [e] + s2 == s1 + [e] && (s1 + [e])[..|s1|] == s1;
      assert s1 + s2 == s1;
    } else {
      var init, last := s2[..|s2| - 1], s2[|s2| - 1];
      assert s1 + [e] + s2 == (s1 + [e] + init) + [last];
      assert s1 + s2 == (s1 + init) + [last];
      assert forall x | x in s1 + [e] + init :: x in s1 + [e] + s2;
      DroppedEntrySymptoms(s1, e, init, phases, maxScores, index, answers, p);
      SameSymptomsExtend(s1 + [e] + init, s1 + init, last, phases, maxScores, index, answers, p);
    }
  }

  /** Appending the same entry to two lists with equal symptom maps keeps them equal. */
  lemma SameSymptomsExtend(x: seq<SymptomEntry>, y: seq<SymptomEntry>, last: SymptomEntry, phases: seq<PhaseEntry>,
                           maxScores: map<string, int>, index: map<int, Question>, answers: map<int, bool>, p: Phase)
    requires Covered(x + [last], maxScores) && Covered(y + [last], maxScores)
    requires Covered(x, maxScores) && Covered(y, maxScores)
    requires PhaseSymptoms(x, phases, maxScores, index, answers, p) == PhaseSymptoms(y, phases, maxScores, index, answers, p)
    ensures PhaseSymptoms(x + [last], phases, maxScores, index, answers, p) == PhaseSymptoms(y + [last], phases, maxScores, index, answers, p)
  {
    assert (x + [last])[..|x|] == x && (x + [last])[|x|] == last;
    assert (y + [last])[..|y|] == y && (y + [last])[|y|] == last;
  }

  /** Removing a symptom that resolves to no phase changes nothing in the result. */
  lemma DroppedSymptom(answers: map<int, bool>, questions: seq<Question>, t: Tables, s1: seq<SymptomEntry>, e: SymptomEntry, s2: seq<SymptomEntry>)
    requires t.symptoms == s1 + [e] + s2
    requires HasMaxScores(t)
    requires FindPhase(t.phases, e.0).None?
    ensures HasMaxScores(t.(symptoms := s1 + s2))
    ensures Score(answers, questions, t) == Score(answers, questions, t.(symptoms := s1 + s2))
  {
    var index := CatalogIndex(questions);
    forall p
      ensures PhaseTotal(s1 + [e] + s2, t.phases, index, answers, p) == PhaseTotal(s1 + s2, t.phases, index, answers, p)
      ensures PhaseSymptoms(s1 + [e] + s2, t.phases, t.maxScores, index, answers, p) == PhaseSymptoms(s1 + s2, t.phases, t.maxScores, index, answers, p)
    {
      DroppedEntryTotal(s1, e, s2, t.phases, index, answers, p);
      DroppedEntrySymptoms(s1, e, s2, t.phases, t.maxScores, index, answers, p);
    }
    DroppedEntrySymptoms(s1, e, s2, t.phases, t.maxScores, index, answers, Tension);
  }

  /** The symptom maps hold exactly the symptoms that resolve to their phase. */
  lemma {:induction false} PhaseSymptomsKeys(entries: seq<SymptomEntry>, phases: seq<PhaseEntry>, maxScores: map<string, int>,
                                           index: map<int, Question>, answers: map<int, bool>, p: Phase, name: string)
    requires Covered(entries, maxScores)
    ensures name in PhaseSymptoms(entries, phases, maxScores, index, answers, p) <==>
      (exists k :: 0 <= k < |entries| && entries[k].0 == name) && FindPhase(phases, name) == Some(p)
  {
    if |entries| > 0 {
      var init := entries[..|entries| - 1];
      assert forall e | e in init :: e in entries;
      PhaseSymptomsKeys(init, phases, maxScores, index, answers, p, name);
      assert forall k :: 0 <= k < |init| ==> init[k] == entries[k];
      if (exists k :: 0 <= k < |entries| && entries[k].0 == name) && !(exists k :: 0 <= k < |init| && init[k].0 == name) {
        assert entries[|entries| - 1].0 == name;
      }
    }
  }

  /** With distinct symptom names, each symptom's result sits in the map of the phase it resolves to. */
  lemma {:induction false} PhaseSymptomsLookup(entries: seq<SymptomEntry>, phases: seq<PhaseEntry>, maxScores: map<string, int>,
                                             index: map<int, Question>, answers: map<int, bool>, k: nat)
    requires Covered(entries, maxScores)
    requires DistinctNames(entries)
    requires k < |entries|
    requires FindPhase(phases, entries[k].0).Some?
    ensures var m := PhaseSymptoms(entries, phases, maxScores, index, answers, FindPhase(phases, entries[k].0).value);
      entries[k].0 in m && m[entries[k].0] == SymptomOf(entries[k], maxScores, index, answers)
  {
    if k < |entries| - 1 {
      var init := entries[..|entries| - 1];
      assert forall e | e in init :: e in entries;
      assert init[k] == entries[k];
      assert DistinctNames(init) by {
        forall i, j | 0 <= i < j < |init| ensures init[i].0 != init[j].0 {
          assert init[i] == entries[i] && init[j] == entries[j];
        }
      }
      PhaseSymptomsLookup(init, phases, maxScores, index, answers, k);
      assert entries[|entries| - 1].0 != entries[k].0;
    }
  }

  /**
   A symptom whose every item is answered in its scoring direction, and whose
   maximum is its item count, scores that maximum and is formed.
   */
  lemma SymptomInScoringDirection(answers: map<int, bool>, questions: seq<Question>, t: Tables, k: nat, p: Phase)
    requires HasMaxScores(t) && DistinctNames(t.symptoms) && k < |t.symptoms|
    requires FindPhase(t.phases, t.symptoms[k].0) == Some(p)
    requires forall id | id in t.symptoms[k].1 ::
      id in CatalogIndex(questions) && id in answers && answers[id] == !CatalogIndex(questions)[id].IsReverse()
    requires t.symptoms[k].0 in t.maxScores && t.maxScores[t.symptoms[k].0] == |t.symptoms[k].1| > 0
    ensures var m := Score(answers, questions, t).Get(p).symptoms;
      t.symptoms[k].0 in m && m[t.symptoms[k].0] == SymptomResult(|t.symptoms[k].1|, Formed, |t.symptoms[k].1|)
  {
    var index := CatalogIndex(questions);
    var ids := t.symptoms[k].1;
    SymptomScoreFull(index, answers, ids);
    assert forall j :: 0 <= j < |ids| ==> ItemScore(index, answers, ids[j]) == 1 by {
      forall j | 0 <= j < |ids| ensures ItemScore(index, answers, ids[j]) == 1 {
        assert ids[j] in ids;
      }
    }
    PhaseSymptomsLookup(t.symptoms, t.phases, t.maxScores, index, answers, k);
  }

  /** The names, in table order, of the symptoms that resolve to phase `p`. */
  function ResolvedNames(entries: seq<SymptomEntry>, phases: seq<PhaseEntry>, p: Phase): seq<string>
  {
    if |entries| == 0 then []
    else
      var e := entries[|entries| - 1];
      ResolvedNames(entries[..|entries| - 1], phases, p) + (if FindPhase(phases, e.0) == Some(p) then [e.0] else [])
  }

  /** Sum of the scores recorded in `m` under `names` (a name absent from `m` adds nothing). */
  function ScoreSum(names: seq<string>, m: map<string, SymptomResult>): nat
  {
    if |names| == 0 then 0
    else
      var n := names[|names| - 1];
      ScoreSum(names[..|names| - 1], m) + (if n in m then m[n].score else 0)
  }

  lemma {:induction false} ScoreSumFrame(names: seq<string>, m: map<string, SymptomResult>, x: string, v: SymptomResult)
    requires x !in names
    ensures ScoreSum(names, m[x := v]) == ScoreSum(names, m)
  {
    if |names| > 0 {
      assert names[|names| - 1] in names;
      ScoreSumFrame(names[..|names| - 1], m, x, v);
    }
  }

  lemma {:induction false} ResolvedNamesFromEntries(entries: seq<SymptomEntry>, phases: seq<PhaseEntry>, p: Phase, n: string)
    requires n in ResolvedNames(entries, phases, p)
    ensures exists k :: 0 <= k < |entries| && entries[k].0 == n
  {
    if |entries| > 0 {
      var init := entries[..|entries| - 1];
      if n in ResolvedNames(init, phases, p) {
        ResolvedNamesFromEntries(init, phases, p, n);
        var k :| 0 <= k < |init| && init[k].0 == n;
        assert entries[k] == init[k];
      } else {
        assert entries[|entries| - 1].0 == n;
      }
    }
  }

  /** A phase's symptom map is keyed by exactly the names of the symptoms resolving to it. */
  lemma {:induction false} PhaseSymptomsKeyedByResolvedNames(entries: seq<SymptomEntry>, phases: seq<PhaseEntry>, maxScores: map<string, int>,
                                                           index: map<int, Question>, answers: map<int, bool>, p: Phase)
    requires Covered(entries, maxScores)
    ensures PhaseSymptoms(entries, phases, maxScores, index, answers, p).Keys == (set n | n in ResolvedNames(entries, phases, p))
  {
    if |entries| > 0 {
      var init := entries[..|entries| - 1];
      assert forall x | x in init :: x in entries;
      PhaseSymptomsKeyedByResolvedNames(init, phases, maxScores, index, answers, p);
    }
  }

  lemma LastNameFresh(entries: seq<SymptomEntry>, phases: seq<PhaseEntry>, p: Phase)
    requires DistinctNames(entries) && |entries| > 0
    ensures entries[|entries| - 1].0 !in ResolvedNames(entries[..|entries| - 1], phases, p)
    ensures DistinctNames(entries[..|entries| - 1])
  {
    var init := entries[..|entries| - 1];
    var x := entries[|entries| - 1].0;
    forall n | n in ResolvedNames(init, phases, p)
      ensures n != x
    {
      ResolvedNamesFromEntries(init, phases, p, n);
      var k :| 0 <= k < |init| && init[k].0 == n;
      assert entries[k] == init[k];
    }
    assert forall i, j | 0 <= i < j < |init| :: init[i] == entries[i] && init[j] == entries[j];
  }

  /** Recording one more fresh symptom adds its score to the sum. */
  lemma ScoreSumExtend(names: seq<string>, m: map<string, SymptomResult>, x: string, v: SymptomResult)
    requires x !in names
    ensures ScoreSum(names + [x], m[x := v]) == ScoreSum(names, m) + v.score
  {
    ScoreSumFrame(names, m, x, v);
    assert (names + [x])[..|names + [x]| - 1] == names;
  }

  /** One symptom step of PhaseTotalIsSymptomSum. */
  lemma PhaseSumStep(entries: seq<SymptomEntry>, phases: seq<PhaseEntry>, maxScores: map<string, int>,
                     index: map<int, Question>, answers: map<int, bool>, p: Phase)
    requires |entries| > 0
    requires Covered(entries, maxScores) && Covered(entries[..|entries| - 1], maxScores)
    requires entries[|entries| - 1].0 !in ResolvedNames(entries[..|entries| - 1], phases, p)
    requires PhaseTotal(entries[..|entries| - 1], phases, index, answers, p)
          == ScoreSum(ResolvedNames(entries[..|entries| - 1], phases, p), PhaseSymptoms(entries[..|entries| - 1], phases, maxScores, index, answers, p))
    ensures PhaseTotal(entries, phases, index, answers, p)
         == ScoreSum(ResolvedNames(entries, phases, p), PhaseSymptoms(entries, phases, maxScores, index, answers, p))
  {
    var init := entries[..|entries| - 1];
    var e := entries[|entries| - 1];
    var names0 := ResolvedNames(init, phases, p);
    var m0 := PhaseSymptoms(init, phases, maxScores, index, answers, p);
    if FindPhase(phases, e.0) == Some(p) {
      ScoreSumExtend(names0, m0, e.0, SymptomOf(e, maxScores, index, answers));
    } else {
      assert ResolvedNames(entries, phases, p) == names0 + [] == names0;
    }
  }

  /**
   With distinct symptom names, a phase total is the sum of the scores recorded
   in the phase's symptom map under the names of the symptoms resolving to it,
   each symptom counted once.
   */
  lemma {:induction false} PhaseTotalIsSymptomSum(entries: seq<SymptomEntry>, phases: seq<PhaseEntry>, maxScores: map<string, int>,
                                                index: map<int, Question>, answers: map<int, bool>, p: Phase)
    requires Covered(entries, maxScores)
    requires DistinctNames(entries)
    ensures PhaseTotal(entries, phases, index, answers, p)
         == ScoreSum(ResolvedNames(entries, phases, p), PhaseSymptoms(entries, phases, maxScores, index, answers, p))
  {
    if |entries| > 0 {
      var init := entries[..|entries| - 1];
      assert forall x | x in init :: x in entries;
      LastNameFresh(entries, phases, p);
      PhaseTotalIsSymptomSum(init, phases, maxScores, index, answers, p);
      PhaseSumStep(entries, phases, maxScores, index, answers, p);
    }
  }

  /**
   In a scored result, each phase's symptom map is keyed by the symptoms resolving
   to that phase and, with distinct symptom names, the phase total is the sum of
   the scores in that map.
   */
  lemma PhaseTotalsMatchSymptomMaps(answers: map<int, bool>, questions: seq<Question>, t: Tables, p: Phase)
    requires HasMaxScores(t) && DistinctNames(t.symptoms)
    ensures var pr := Score(answers, questions, t).Get(p);
      var names := ResolvedNames(t.symptoms, t.phases, p);
      && pr.symptoms.Keys == (set n | n in names)
      && pr.total == ScoreSum(names, pr.symptoms)
  {
    var index := CatalogIndex(questions);
    PhaseSymptomsKeyedByResolvedNames(t.symptoms, t.phases, t.maxScores, index, answers, p);
    PhaseTotalIsSymptomSum(t.symptoms, t.phases, t.maxScores, index, answers, p);
  }
}
