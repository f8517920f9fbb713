/**
 The statistics API once the datastore has answered: the record saved for a
 scored result, the overall statistics, the burnout-level distribution, the
 average session duration and the daily statistics list. Every operation takes
 the already-fetched rows (`None` models a `null` answer) and is a pure fold.
 */
module Statistics {
  import opened Wrappers
  import opened BoykoTypes

  /** The three phase results stored alongside a record. */
  datatype Phases = Phases(tension: PhaseResult, resistance: PhaseResult, exhaustion: PhaseResult)

  /** A row of the results table, restricted to the columns this core writes or reads. */
  datatype TestResult = TestResult(
    tensionScore: int,
    resistanceScore: int,
    exhaustionScore: int,
    overallScore: int,
    burnoutLevel: string,
    symptoms: BoykoResult,
    phases: Phases,
    sessionDuration: Option<int>)

  // ---------------------------------------------------------------------------
  // Rounding
  // ---------------------------------------------------------------------------

  /** `Math.round`: the nearest integer, halves rounded up. */
  function Round(x: real): (n: int)
    ensures n as real - 0.5 <= x < n as real + 0.5
  {
    (x + 0.5).Floor
  }

  /** Only one integer lies within half a unit of `x` (halves going up). */
  lemma RoundUnique(x: real, n: int)
    requires n as real - 0.5 <= x < n as real + 0.5
    ensures Round(x) == n
  {
  }

  // ---------------------------------------------------------------------------
  // saveResult
  // ---------------------------------------------------------------------------

  /**
   The record saved for `result` after a session of `sessionMillis` milliseconds:
   the phase totals, overall score and level are copied, and the duration is
   stored in whole seconds.
   */
  function ToRecord(result: BoykoResult, sessionMillis: int): (rec: TestResult)
    ensures rec.tensionScore == result.tension.total
    ensures rec.resistanceScore == result.resistance.total
    ensures rec.exhaustionScore == result.exhaustion.total
    ensures rec.overallScore == result.overallScore
    ensures ParseLevel(rec.burnoutLevel) == Some(result.burnoutLevel)
    ensures rec.symptoms == result
    ensures rec.phases == Phases(result.tension, result.resistance, result.exhaustion)
    ensures rec.sessionDuration.Some?
    ensures rec.sessionDuration.value as real - 0.5 <= sessionMillis as real / 1000.0 < rec.sessionDuration.value as real + 0.5
  {
    ParseLevelName(result.burnoutLevel);
    TestResult(
      result.tension.total,
      result.resistance.total,
      result.exhaustion.total,
      result.overallScore,
      LevelName(result.burnoutLevel),
      result,
      Phases(result.tension, result.resistance, result.exhaustion),
      Some(Round(sessionMillis as real / 1000.0)))
  }

  /** The stored duration is the millisecond count plus 500, divided by 1000 and rounded down. */
  lemma StoredSecondsFormula(result: BoykoResult, sessionMillis: int)
    ensures ToRecord(result, sessionMillis).sessionDuration == Some((sessionMillis + 500) / 1000)
  {
    var q := (sessionMillis + 500) / 1000;
    assert 1000 * q - 500 <= sessionMillis < 1000 * q + 500;
    var x := sessionMillis as real / 1000.0;
    assert x * 1000.0 == sessionMillis as real;
    RoundUnique(x, q);
  }

  // ---------------------------------------------------------------------------
  // Sums and counts
  // ---------------------------------------------------------------------------

  /** The score columns that are averaged. */
  datatype ScoreField = OverallField | TensionField | ResistanceField | ExhaustionField

  function FieldOf(rec: TestResult, f: ScoreField): int {
    match f
    case OverallField => rec.overallScore
    case TensionField => rec.tensionScore
    case ResistanceField => rec.resistanceScore
    case ExhaustionField => rec.exhaustionScore
  }

  /** The `reduce` summing one column. */
  function Sum(rs: seq<TestResult>, f: ScoreField): int {
    if |rs| == 0 then 0 else Sum(rs[..|rs| - 1], f) + FieldOf(rs[|rs| - 1], f)
  }

  /** The length of the `filter` keeping rows whose level is `level`. */
  function Count(rs: seq<TestResult>, level: string): (n: nat)
    ensures n <= |rs|
  {
    if |rs| == 0 then 0 else Count(rs[..|rs| - 1], level) + (if rs[|rs| - 1].burnoutLevel == level then 1 else 0)
  }

  /** The number of rows whose level is none of the four known names. */
  function CountUnknown(rs: seq<TestResult>): nat {
    if |rs| == 0 then 0 else CountUnknown(rs[..|rs| - 1]) + (if ParseLevel(rs[|rs| - 1].burnoutLevel).None? then 1 else 0)
  }

  /** Every row carries one of the four known level names. */
  predicate AllKnown(rs: seq<TestResult>) {
    forall i :: 0 <= i < |rs| ==> ParseLevel(rs[i].burnoutLevel).Some?
  }

  /** Every row is counted once: in the bucket of its level, or as unknown. */
  lemma {:induction false} CountsPartition(rs: seq<TestResult>)
    ensures Count(rs, "low") + Count(rs, "medium") + Count(rs, "high") + Count(rs, "critical") + CountUnknown(rs) == |rs|
  {
    if |rs| > 0 {
      CountsPartition(rs[..|rs| - 1]);
    }
  }

  lemma {:induction false} NoUnknownWhenAllKnown(rs: seq<TestResult>)
    requires AllKnown(rs)
    ensures CountUnknown(rs) == 0
  {
    if |rs| > 0 {
      var init := rs[..|rs| - 1];
      assert forall i :: 0 <= i < |init| ==> init[i] == rs[i];
      NoUnknownWhenAllKnown(init);
    }
  }

  // ---------------------------------------------------------------------------
  // getOverallStatistics
  // ---------------------------------------------------------------------------

  datatype Distribution = Distribution(low: nat, medium: nat, high: nat, critical: nat)

  datatype OverallStats = OverallStats(
    totalTests: nat,
    avgOverallScore: real,
    avgTensionScore: real,
    avgResistanceScore: real,
    avgExhaustionScore: real,
    distribution: Distribution)

  function AverageOf(s: OverallStats, f: ScoreField): real {
    match f
    case OverallField => s.avgOverallScore
    case TensionField => s.avgTensionScore
    case ResistanceField => s.avgResistanceScore
    case ExhaustionField => s.avgExhaustionScore
  }

  /**
   Overall statistics of the fetched rows. No rows (or `null`) gives all zeros;
   otherwise every average times the row count is that column's sum and each
   bucket counts the rows carrying its level.
   */
  function OverallStatistics(data: Option<seq<TestResult>>): (s: OverallStats)
    ensures data.None? || |data.value| == 0 ==>
      s == OverallStats(0, 0.0, 0.0, 0.0, 0.0, Distribution(0, 0, 0, 0))
    ensures data.Some? ==> s.totalTests == |data.value|
    ensures data.Some? ==> forall f :: AverageOf(s, f) * (|data.value| as real) == Sum(data.value, f) as real
    ensures data.Some? ==> (s.distribution ==
      Distribution(Count(data.value, "low"), Count(data.value, "medium"), Count(data.value, "high"), Count(data.value, "critical")))
  {
    if data.None? || |data.value| == 0 then
      OverallStats(0, 0.0, 0.0, 0.0, 0.0, Distribution(0, 0, 0, 0))
    else
      var rs := data.value;
      var n := |rs| as real;
      OverallStats(
        |rs|,
        Sum(rs, OverallField) as real / n,
        Sum(rs, TensionField) as real / n,
        Sum(rs, ResistanceField) as real / n,
        Sum(rs, ExhaustionField) as real / n,
        Distribution(Count(rs, "low"), Count(rs, "medium"), Count(rs, "high"), Count(rs, "critical")))
  }

  /** The buckets never count more rows than there are, and exactly all of them when every level is known. */
  lemma DistributionTotal(data: Option<seq<TestResult>>)
    ensures var d := OverallStatistics(data).distribution;
      d.low + d.medium + d.high + d.critical <= OverallStatistics(data).totalTests
    ensures data.Some? && AllKnown(data.value) ==>
      var d := OverallStatistics(data).distribution;
      d.low + d.medium + d.high + d.critical == OverallStatistics(data).totalTests
  {
    if data.Some? {
      CountsPartition(data.value);
      if AllKnown(data.value) {
        NoUnknownWhenAllKnown(data.value);
      }
    }
  }

  /** The records saved for a batch of scored sessions (result, milliseconds). */
  function SaveAll(sessions: seq<(BoykoResult, int)>): (rs: seq<TestResult>)
    ensures |rs| == |sessions|
    ensures forall i :: 0 <= i < |rs| ==> rs[i] == ToRecord(sessions[i].0, sessions[i].1)
  {
    if |sessions| == 0 then [] else SaveAll(sessions[..|sessions| - 1]) + [ToRecord(sessions[|sessions| - 1].0, sessions[|sessions| - 1].1)]
  }

  /** Over records the scoring engine produced, the four buckets account for every test. */
  lemma SavedRecordsFillBuckets(sessions: seq<(BoykoResult, int)>)
    ensures var s := OverallStatistics(Some(SaveAll(sessions)));
      s.distribution.low + s.distribution.medium + s.distribution.high + s.distribution.critical == s.totalTests
  {
  }

  lemma {:induction false} SumBounds(rs: seq<TestResult>, f: ScoreField, lo: int, hi: int)
    requires forall i :: 0 <= i < |rs| ==> lo <= FieldOf(rs[i], f) <= hi
    ensures |rs| * lo <= Sum(rs, f) <= |rs| * hi
  {
    if |rs| > 0 {
      var init := rs[..|rs| - 1];
      assert forall i :: 0 <= i < |init| ==> init[i] == rs[i];
      SumBounds(init, f, lo, hi);
    }
  }

  lemma QuotientBounds(s: real, n: real, lo: real, hi: real)
    requires n > 0.0
    requires lo * n <= s <= hi * n
    ensures lo <= s / n <= hi
  {
  }

  lemma QuotientBelow(s: real, n: real, hi: real)
    requires n > 0.0
    requires s < hi * n
    ensures s / n < hi
  {
  }

  /** Integer bounds on a sum carry over to the reals. */
  lemma SumBoundsAsReal(n: nat, sum: int, lo: int, hi: int)
    requires n * lo <= sum <= n * hi
    ensures lo as real * n as real <= sum as real <= hi as real * n as real
  {
    assert lo as real * n as real == (n * lo) as real;
    assert hi as real * n as real == (n * hi) as real;
  }

  /** Over a non-empty answer, every average is its column sum divided by the row count. */
  lemma AverageIsQuotient(data: Option<seq<TestResult>>, f: ScoreField)
    requires data.Some? && |data.value| > 0
    ensures AverageOf(OverallStatistics(data), f) == Sum(data.value, f) as real / |data.value| as real
  {
  }

  /** Every average lies between any lower and upper bound of its column. */
  lemma AverageWithinBounds(data: Option<seq<TestResult>>, f: ScoreField, lo: int, hi: int)
    requires data.Some? && |data.value| > 0
    requires forall i :: 0 <= i < |data.value| ==> lo <= FieldOf(data.value[i], f) <= hi
    ensures lo as real <= AverageOf(OverallStatistics(data), f) <= hi as real
  {
    var rs := data.value;
    SumBounds(rs, f, lo, hi);
    SumBoundsAsReal(|rs|, Sum(rs, f), lo, hi);
    QuotientBounds(Sum(rs, f) as real, |rs| as real, lo as real, hi as real);
    AverageIsQuotient(data, f);
  }

  /** Three rows scoring 10, 50 and 70 overall, at levels low, high and critical. */
  lemma ThreeRecordExample(r: BoykoResult, ph: Phases)
    ensures var rs := [
        TestResult(0, 0, 0, 10, "low", r, ph, None),
        TestResult(0, 0, 0, 50, "high", r, ph, None),
        TestResult(0, 0, 0, 70, "critical", r, ph, None)];
      var s := OverallStatistics(Some(rs));
      s.totalTests == 3 && s.avgOverallScore == 130.0 / 3.0 && s.distribution == Distribution(1, 0, 1, 1)
  {
    var rs := [
        TestResult(0, 0, 0, 10, "low", r, ph, None),
        TestResult(0, 0, 0, 50, "high", r, ph, None),
        TestResult(0, 0, 0, 70, "critical", r, ph, None)];
    assert rs[..2] == [rs[0], rs[1]] && rs[..2][..1] == [rs[0]] && [rs[0]][..0] == [];
    assert Sum([rs[0]], OverallField) == 10;
    assert Sum(rs[..2], OverallField) == 60;
    assert Sum(rs, OverallField) == 130;
    assert Count([rs[0]], "low") == 1 && Count(rs[..2], "low") == 1 && Count(rs, "low") == 1;
    assert Count([rs[0]], "medium") == 0 && Count(rs[..2], "medium") == 0 && Count(rs, "medium") == 0;
    assert Count([rs[0]], "high") == 0 && Count(rs[..2], "high") == 1 && Count(rs, "high") == 1;
    assert Count([rs[0]], "critical") == 0 && Count(rs[..2], "critical") == 0 && Count(rs, "critical") == 1;
  }

  // ---------------------------------------------------------------------------
  // getBurnoutLevelDistribution
  // ---------------------------------------------------------------------------

  /** A value of the returned object: a count, or NaN from incrementing an absent key. */
  datatype Tally = Tally(n: nat) | NotANumber

  function Increment(t: Tally): Tally {
    match t
    case Tally(n) => Tally(n + 1)
    case NotANumber => NotANumber
  }

  function KnownNames(): set<string> {
    {"low", "medium", "high", "critical"}
  }

  function ZeroDistribution(): map<string, Tally> {
    map["low" := Tally(0), "medium" := Tally(0), "high" := Tally(0), "critical" := Tally(0)]
  }

  /**
   The `forEach` incrementing `distribution[level]` for every fetched row. A level
   outside the four known names adds its own key, whose value is NaN.
   */
  function LevelDistribution(data: Option<seq<TestResult>>): (m: map<string, Tally>)
    ensures KnownNames() <= m.Keys
  {
    if data.None? then ZeroDistribution() else Tallies(data.value)
  }

  function Tallies(rs: seq<TestResult>): (m: map<string, Tally>)
    ensures KnownNames() <= m.Keys
  {
    if |rs| == 0 then ZeroDistribution()
    else
      var m0 := Tallies(rs[..|rs| - 1]);
      var level := rs[|rs| - 1].burnoutLevel;
      if level in m0 then m0[level := Increment(m0[level])] else m0[level := NotANumber]
  }

  /** Each known bucket holds the number of rows at that level. */
  lemma {:induction false} TalliesKnown(rs: seq<TestResult>, level: string)
    requires level in KnownNames()
    ensures Tallies(rs)[level] == Tally(Count(rs, level))
  {
    if |rs| > 0 {
      TalliesKnown(rs[..|rs| - 1], level);
    }
  }

  /** Any other key is present exactly when some row carries it, and then holds NaN. */
  lemma {:induction false} TalliesUnknown(rs: seq<TestResult>, level: string)
    requires level !in KnownNames()
    ensures level in Tallies(rs) <==> exists i :: 0 <= i < |rs| && rs[i].burnoutLevel == level
    ensures level in Tallies(rs) ==> Tallies(rs)[level] == NotANumber
  {
    if |rs| > 0 {
      var init := rs[..|rs| - 1];
      TalliesUnknown(init, level);
      assert forall i :: 0 <= i < |init| ==> init[i] == rs[i];
      if level !in Tallies(init) && level in Tallies(rs) {
        assert rs[|rs| - 1].burnoutLevel == level;
      }
    }
  }

  /** The distribution object as the four-bucket count map. */
  function AsTallies(d: Distribution): map<string, Tally> {
    map["low" := Tally(d.low), "medium" := Tally(d.medium), "high" := Tally(d.high), "critical" := Tally(d.critical)]
  }

  lemma TalliesAllKnown(rs: seq<TestResult>)
    requires AllKnown(rs)
    ensures Tallies(rs).Keys == KnownNames()
  {
  }

  /**
   The distribution endpoint reports, for each known level, the count the overall
   statistics report; when every level is known it returns exactly their distribution.
   */
  lemma DistributionsAgree(data: Option<seq<TestResult>>)
    ensures forall b :: LevelDistribution(data)[LevelName(b)] == AsTallies(OverallStatistics(data).distribution)[LevelName(b)]
    ensures data.None? || AllKnown(data.value) ==> LevelDistribution(data) == AsTallies(OverallStatistics(data).distribution)
  {
    if data.Some? {
      var rs := data.value;
      var m := Tallies(rs);
      var d := OverallStatistics(data).distribution;
      TalliesKnown(rs, "low");
      TalliesKnown(rs, "medium");
      TalliesKnown(rs, "high");
      TalliesKnown(rs, "critical");
      assert m["low"] == Tally(d.low) && m["medium"] == Tally(d.medium) && m["high"] == Tally(d.high) && m["critical"] == Tally(d.critical);
      if AllKnown(rs) {
        TalliesAllKnown(rs);
        assert m == AsTallies(d);
      }
    }
  }

  // ---------------------------------------------------------------------------
  // getAverageSessionDuration
  // ---------------------------------------------------------------------------

  /** The durations of the rows whose duration is truthy: present and not 0. */
  function Durations(rs: seq<TestResult>): (d: seq<int>)
    ensures |d| <= |rs|
    ensures forall k :: 0 <= k < |d| ==> d[k] != 0
  {
    if |rs| == 0 then []
    else
      var last := rs[|rs| - 1].sessionDuration;
      Durations(rs[..|rs| - 1]) + (if last.Some? && last.value != 0 then [last.value] else [])
  }

  /** A duration is averaged iff some row carries it and it is not 0. */
  lemma {:induction false} DurationsContents(rs: seq<TestResult>, v: int)
    ensures v in Durations(rs) <==> v != 0 && exists i :: 0 <= i < |rs| && rs[i].sessionDuration == Some(v)
  {
    if |rs| > 0 {
      var init := rs[..|rs| - 1];
      DurationsContents(init, v);
      assert forall i :: 0 <= i < |init| ==> init[i] == rs[i];
      if v != 0 && (exists i :: 0 <= i < |rs| && rs[i].sessionDuration == Some(v)) && v !in Durations(init) {
        assert rs[|rs| - 1].sessionDuration == Some(v);
      }
    }
  }

  /**
   Every row with a truthy duration is kept exactly once: a non-zero value occurs
   in `Durations` as many times as rows carry it, and 0 never occurs.
   */
  lemma {:induction false} DurationsCount(rs: seq<TestResult>, v: int)
    ensures multiset(Durations(rs))[v] == if v == 0 then 0 else |set i | 0 <= i < |rs| && rs[i].sessionDuration == Some(v)|
  {
    if v == 0 {
      assert 0 !in Durations(rs);
    } else {
      DurationsCountNonZero(rs, v);
    }
  }

  /** The positions of the rows whose duration is `v`. */
  function Carriers(rs: seq<TestResult>, v: int): set<int> {
    set i | 0 <= i < |rs| && rs[i].sessionDuration == Some(v)
  }

  lemma CarriersStep(rs: seq<TestResult>, v: int)
    requires |rs| > 0
    ensures |Carriers(rs, v)| == |Carriers(rs[..|rs| - 1], v)| + (if rs[|rs| - 1].sessionDuration == Some(v) then 1 else 0)
  {
    var init := rs[..|rs| - 1];
    assert forall i :: 0 <= i < |init| ==> init[i] == rs[i];
    if rs[|rs| - 1].sessionDuration == Some(v) {
      assert Carriers(rs, v) == Carriers(init, v) + {|rs| - 1};
    } else {
      assert Carriers(rs, v) == Carriers(init, v);
    }
  }

  lemma {:induction false} DurationsCountNonZero(rs: seq<TestResult>, v: int)
    requires v != 0
    ensures multiset(Durations(rs))[v] == |Carriers(rs, v)|
  {
    if |rs| == 0 {
      assert Carriers(rs, v) == {};
    } else {
      var init := rs[..|rs| - 1];
      DurationsCountNonZero(init, v);
      CarriersStep(rs, v);
      var last := rs[|rs| - 1].sessionDuration;
      var tail := if last.Some? && last.value != 0 then [last.value] else [];
      assert Durations(rs) == Durations(init) + tail;
      assert multiset(Durations(rs))[v] == multiset(Durations(init))[v] + multiset(tail)[v];
    }
  }

  /** The number of averaged durations is the number of rows whose duration is truthy. */
  lemma {:induction false} DurationsLength(rs: seq<TestResult>)
    ensures |Durations(rs)| == |set i | 0 <= i < |rs| && rs[i].sessionDuration.Some? && rs[i].sessionDuration.value != 0|
  {
    var S := set i | 0 <= i < |rs| && rs[i].sessionDuration.Some? && rs[i].sessionDuration.value != 0;
    if |rs| == 0 {
      assert S == {};
    } else {
      var init := rs[..|rs| - 1];
      DurationsLength(init);
      var S0 := set i | 0 <= i < |init| && init[i].sessionDuration.Some? && init[i].sessionDuration.value != 0;
      assert forall i :: 0 <= i < |init| ==> init[i] == rs[i];
      var last := rs[|rs| - 1].sessionDuration;
      if last.Some? && last.value != 0 {
        assert S == S0 + {|rs| - 1};
        assert |rs| - 1 !in S0;
      } else {
        assert S == S0;
      }
    }
  }

  function SumInts(xs: seq<int>): int {
    if |xs| == 0 then 0 else SumInts(xs[..|xs| - 1]) + xs[|xs| - 1]
  }

  /**
   The average session duration in whole seconds: the mean of the truthy
   durations rounded half up, or 0 when there is none.
   */
  function AverageSessionDuration(data: Option<seq<TestResult>>): (secs: int)
    ensures var d := if data.Some? then Durations(data.value) else [];
      && (|d| == 0 ==> secs == 0)
      && (|d| > 0 ==> secs as real - 0.5 <= SumInts(d) as real / |d| as real < secs as real + 0.5)
  {
    var durations := if data.Some? then Durations(data.value) else [];
    var average := if |durations| > 0 then SumInts(durations) as real / |durations| as real else 0.0;
    Round(average)
  }

  /** Rounding a quotient half up is integer division of `2 * s + n` by `2 * n`. */
  lemma RoundQuotient(s: int, n: int)
    requires n > 0
    ensures Round(s as real / n as real) == (2 * s + n) / (2 * n)
  {
    var q := (2 * s + n) / (2 * n);
    var r := (2 * s + n) % (2 * n);
    assert 2 * s + n == 2 * n * q + r && 0 <= r < 2 * n;
    var x := s as real / n as real;
    assert x * n as real == s as real;
    // 2s = 2nq + r - n with 0 <= r < 2n, so q - 1/2 <= s/n < q + 1/2
    assert (2 * s) as real == (2 * n * q) as real + r as real - n as real;
    assert 2 * s < (2 * q + 1) * n;
    assert (q as real - 0.5) * n as real <= s as real;
    assert s as real < (q as real + 0.5) * n as real;
    QuotientBounds(s as real, n as real, q as real - 0.5, q as real + 0.5);
    QuotientBelow(s as real, n as real, q as real + 0.5);
    RoundUnique(x, q);
  }

  /** For at least one truthy duration the result is `(2 * sum + n) / (2 * n)` in integer division. */
  lemma RoundedAverageFormula(data: Option<seq<TestResult>>)
    requires data.Some? && |Durations(data.value)| > 0
    ensures var d := Durations(data.value);
      AverageSessionDuration(data) == (2 * SumInts(d) + |d|) / (2 * |d|)
  {
    var d := Durations(data.value);
    RoundQuotient(SumInts(d), |d|);
  }

  // ---------------------------------------------------------------------------
  // getAggregatedStats
  // ---------------------------------------------------------------------------

  /**
   A row of the per-day statistics view. The view's `date` column holds ISO date
   strings; they are abstracted here to day numbers, which order the same way.
   */
  datatype DailyStats = DailyStats(
    date: int,
    totalTests: nat,
    avgOverallScore: real,
    avgTensionScore: real,
    avgResistanceScore: real,
    avgExhaustionScore: real,
    lowCount: nat,
    mediumCount: nat,
    highCount: nat,
    criticalCount: nat)

  function Reverse<T>(xs: seq<T>): (r: seq<T>)
    ensures |r| == |xs|
    ensures forall i :: 0 <= i < |xs| ==> r[i] == xs[|xs| - 1 - i]
  {
    if |xs| == 0 then [] else [xs[|xs| - 1]] + Reverse(xs[..|xs| - 1])
  }

  /** The fetched newest-first rows turned oldest-first; `null` becomes the empty list. */
  function OldestFirst(data: Option<seq<DailyStats>>): (r: seq<DailyStats>)
    ensures data.None? ==> r == []
    ensures data.Some? ==> r == Reverse(data.value)
  {
    if data.None? then [] else Reverse(data.value)
  }

  /** Rows fetched in descending date order come back in ascending date order. */
  lemma OldestFirstAscending(rows: seq<DailyStats>)
    requires forall i, j :: 0 <= i < j < |rows| ==> rows[i].date >= rows[j].date
    ensures forall i, j :: 0 <= i < j < |OldestFirst(Some(rows))| ==>
      OldestFirst(Some(rows))[i].date <= OldestFirst(Some(rows))[j].date
  {
  }

  /** Reversing twice gives back the fetched list. */
  lemma ReverseInvolution<T>(xs: seq<T>)
    ensures Reverse(Reverse(xs)) == xs
  {
  }
}
