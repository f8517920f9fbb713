/**
 The data model of the Boyko burnout inventory: phases, classification levels,
 questions and the nested result structure the scoring engine produces.
 */
module BoykoTypes {
  import opened Wrappers

  /** The three phases of the burnout model, always reported in this order. */
  datatype Phase = Tension | Resistance | Exhaustion

  /** The level of a symptom or of a phase. */
  datatype Level = NotFormed | Forming | Formed

  /** The overall burnout level. */
  datatype BurnoutLevel = Low | Medium | High | Critical

  /** A catalog item. `reverse` is optional; only an explicit `true` marks a reverse-coded item. */
  datatype Question = Question(id: int, text: string, phase: Phase, symptom: string, reverse: Option<bool>)
  {
    /** The item is reverse-coded: a "no" answer scores. */
    predicate IsReverse() {
      reverse == Some(true)
    }
  }

  datatype SymptomResult = SymptomResult(score: nat, level: Level, maxScore: int)

  datatype PhaseResult = PhaseResult(total: nat, symptoms: map<string, SymptomResult>, level: Level, maxScore: int)

  /** One PhaseResult per phase, the overall score and its level. */
  datatype BoykoResult = BoykoResult(
    tension: PhaseResult,
    resistance: PhaseResult,
    exhaustion: PhaseResult,
    overallScore: nat,
    burnoutLevel: BurnoutLevel)
  {
    /** The result of phase `p`. */
    function Get(p: Phase): PhaseResult {
      match p
      case Tension => tension
      case Resistance => resistance
      case Exhaustion => exhaustion
    }

    /** This result with the entry of phase `p` replaced by `pr`. */
    function With(p: Phase, pr: PhaseResult): (r: BoykoResult)
      ensures r.Get(p) == pr
      ensures forall q :: q != p ==> r.Get(q) == Get(q)
      ensures r.overallScore == overallScore && r.burnoutLevel == burnoutLevel
    {
      match p
      case Tension => this.(tension := pr)
      case Resistance => this.(resistance := pr)
      case Exhaustion => this.(exhaustion := pr)
    }
  }

  /** A ranking that orders levels from weakest to strongest. */
  function LevelRank(l: Level): nat {
    match l
    case NotFormed => 0
    case Forming => 1
    case Formed => 2
  }

  function BurnoutRank(b: BurnoutLevel): nat {
    match b
    case Low => 0
    case Medium => 1
    case High => 2
    case Critical => 3
  }

  /** The phase `maxScore` fields the result is initialised with (28, 28, 27). */
  function PhaseMaxScore(p: Phase): int {
    match p
    case Tension => 28
    case Resistance => 28
    case Exhaustion => 27
  }

  /** The stored spelling of a burnout level. */
  function LevelName(b: BurnoutLevel): string {
    match b
    case Low => "low"
    case Medium => "medium"
    case High => "high"
    case Critical => "critical"
  }

  /** Reads a stored burnout level back; anything other than the four names is None. */
  function ParseLevel(s: string): (r: Option<BurnoutLevel>)
    ensures r.Some? ==> LevelName(r.value) == s
    ensures r.None? ==> forall b :: LevelName(b) != s
  {
    if s == "low" then Some(Low)
    else if s == "medium" then Some(Medium)
    else if s == "high" then Some(High)
    else if s == "critical" then Some(Critical)
    else None
  }

  lemma ParseLevelName(b: BurnoutLevel)
    ensures ParseLevel(LevelName(b)) == Some(b)
  {
  }
}
