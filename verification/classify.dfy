/**
 The three step classifiers of the scoring engine: symptom level by percentage of
 the symptom's maximum, phase level by per-phase absolute thresholds, and the
 overall burnout level.
 */
module Classify {
  import opened BoykoTypes

  /**
   Level of a symptom with `score` out of `maxScore`. `getSymptomLevel` compares the
   floating-point percentage `score / maxScore * 100` against 85 and 50; for a
   positive maximum this is the exact cross-multiplication below. A zero maximum
   gives Infinity (formed) for a positive score and NaN (not formed, every
   comparison with NaN is false) for a zero score; a negative maximum gives a
   non-positive percentage.
   */
  function SymptomLevel(score: nat, maxScore: int): (l: Level)
    ensures maxScore > 0 ==> (l == Formed <==> 100 * score >= 85 * maxScore)
    ensures maxScore > 0 ==> (l == Forming <==> 50 * maxScore <= 100 * score < 85 * maxScore)
    ensures maxScore > 0 ==> (l == NotFormed <==> 100 * score < 50 * maxScore)
    ensures maxScore == 0 ==> (l == Formed <==> score > 0)
    ensures maxScore == 0 ==> (l == NotFormed <==> score == 0)
    ensures maxScore < 0 ==> l == NotFormed
  {
    if maxScore > 0 then
      if score * 100 >= 85 * maxScore then Formed
      else if score * 100 >= 50 * maxScore then Forming
      else NotFormed
    else if maxScore == 0 && score > 0 then Formed
    else NotFormed
  }

  /** The "forming" threshold of each phase. */
  function FormingThreshold(p: Phase): nat {
    match p
    case Tension => 18
    case Resistance => 15
    case Exhaustion => 9
  }

  /** The "formed" threshold of each phase. */
  function FormedThreshold(p: Phase): nat {
    match p
    case Tension => 30
    case Resistance => 25
    case Exhaustion => 15
  }

  /** Level of a phase whose total is `score`. */
  function PhaseLevel(score: int, p: Phase): (l: Level)
    ensures l == Formed <==> score >= FormedThreshold(p)
    ensures l == Forming <==> FormingThreshold(p) <= score < FormedThreshold(p)
    ensures l == NotFormed <==> score < FormingThreshold(p)
  {
    if score >= FormedThreshold(p) then Formed
    else if score >= FormingThreshold(p) then Forming
    else NotFormed
  }

  /** The overall burnout level of an overall score. */
  function OverallBurnoutLevel(score: int): (b: BurnoutLevel)
    ensures b == Critical <==> score >= 60
    ensures b == High <==> 40 <= score < 60
    ensures b == Medium <==> 20 <= score < 40
    ensures b == Low <==> score < 20
  {
    if score >= 60 then Critical
    else if score >= 40 then High
    else if score >= 20 then Medium
    else Low
  }

  /** A higher symptom score never lowers the symptom level. */
  lemma SymptomLevelMonotone(s1: nat, s2: nat, maxScore: int)
    requires s1 <= s2
    ensures LevelRank(SymptomLevel(s1, maxScore)) <= LevelRank(SymptomLevel(s2, maxScore))
  {
  }

  /** A higher phase total never lowers the phase level. */
  lemma PhaseLevelMonotone(s1: int, s2: int, p: Phase)
    requires s1 <= s2
    ensures LevelRank(PhaseLevel(s1, p)) <= LevelRank(PhaseLevel(s2, p))
  {
  }

  /** A higher overall score never lowers the burnout level. */
  lemma OverallLevelMonotone(s1: int, s2: int)
    requires s1 <= s2
    ensures BurnoutRank(OverallBurnoutLevel(s1)) <= BurnoutRank(OverallBurnoutLevel(s2))
  {
  }

  /** Totals 30, 25 and 15 reach "formed" in every phase, and 70 overall is critical. */
  lemma ThresholdExamples()
    ensures PhaseLevel(30, Tension) == Formed
    ensures PhaseLevel(25, Resistance) == Formed
    ensures PhaseLevel(15, Exhaustion) == Formed
    ensures PhaseLevel(29, Tension) == Forming
    ensures PhaseLevel(8, Exhaustion) == NotFormed
    ensures OverallBurnoutLevel(30 + 25 + 15) == Critical
    ensures OverallBurnoutLevel(19) == Low
  {
  }
}
