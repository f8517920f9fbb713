# Boyko burnout inventory: scoring and statistics model

This project models the core of a web questionnaire for the Boyko emotional
burnout inventory. It covers four parts:

- **Scoring engine** (`calculateBoykoResult`). Yes/no answers become item scores.
  Reverse-coded items count a "no". Item scores are summed per symptom, and each
  symptom is added to the phase it resolves to (tension, resistance, exhaustion).
  Every symptom, every phase and the overall score are then classified by fixed
  thresholds. The display-order Fisher–Yates shuffle belongs here too.
- **Statistics API**, the pure part once the datastore has answered: the record
  saved for a result, the overall statistics (count, four averages, a
  four-bucket distribution), the distribution endpoint, the average session
  duration, and the oldest-first daily statistics list.
- **Demographic form validators**: the consent check, the demographics check
  (form record in, error keys out), and the error clearing done when a field is
  edited.

Modules: `Wrappers` (Option), `BoykoTypes` (the data model), `Classify` (the
three classifiers), `Scoring`, `Shuffle`, `Statistics`, `DemographicForm`.

The symptom-to-question-ids table, the phase-to-symptoms table and the
symptom-maximum table are parameters of the engine. They are passed as
`Scoring.Tables`: the first two as the ordered lists of their entries, the third
as a map. The only requirement placed on them is that every symptom has a maximum
(`Scoring.HasMaxScores`), because the result type declares `maxScore` a number.
The question catalog is a parameter too. `questions.ts` and `symptomMapping.ts`
are not part of this model.

`Scoring.Score` is a declarative reference definition: a phase total is the sum
of the scores of the symptoms that resolve to that phase.
`Scoring.CalculateBoykoResult` follows the source's algorithm step by step, and
it is proved to return exactly `Score`.

The code behaves as follows in these cases:

- A symptom listed under no phase is silently dropped. It is not rejected as a
  configuration error.
- A symptom listed under two phases goes to the first one.
- The average session duration leaves out durations that are missing **and**
  durations equal to 0 (a truthiness filter).
- The distribution endpoint does not skip an unknown level. It adds a key for
  that level whose value is NaN (`Statistics.Tally.NotANumber`).
- The phase `maxScore` fields are 28/28/27. The statistics page shows 36/30/27.
- The overall score is not bounded by 84 by construction. It is bounded by the
  number of question ids in the symptom table, and by the catalog size when no id
  is listed twice.
- The scoring engine never reads a question's own `phase` and `symptom` fields.
  Only the mapping tables decide where an item counts.

## Model

| member | source | states |
|---|---|---|
| BoykoTypes.ParseLevel | src/entities/boyko-test/model/types.ts:29 | a stored level string is recognised exactly when it is the spelling of one of the four burnout levels |
| BoykoTypes.ParseLevelName | src/entities/boyko-test/model/api.ts:21 | the stored spelling of every burnout level reads back as that level |
| Classify.SymptomLevel | src/entities/boyko-test/model/calculateResult.ts:93-100 | for a positive maximum: formed iff 100·score ≥ 85·max, forming iff 50·max ≤ 100·score < 85·max, otherwise not formed; a zero maximum gives formed for a positive score (Infinity) and not formed for a zero score (NaN), never forming; a negative maximum is never formed |
| Classify.PhaseLevel | src/entities/boyko-test/model/calculateResult.ts:102-112 | formed iff the total reaches 30/25/15 (tension/resistance/exhaustion), forming iff it lies in [18,30)/[15,25)/[9,15), otherwise not formed |
| Classify.OverallBurnoutLevel | src/entities/boyko-test/model/calculateResult.ts:114-119 | critical iff score ≥ 60, high iff 40 ≤ score < 60, medium iff 20 ≤ score < 40, low iff score < 20 |
| Classify.SymptomLevelMonotone | src/entities/boyko-test/model/calculateResult.ts:93-100 | a higher symptom score never gives a lower level |
| Classify.PhaseLevelMonotone | src/entities/boyko-test/model/calculateResult.ts:102-112 | a higher phase total never gives a lower level |
| Classify.OverallLevelMonotone | src/entities/boyko-test/model/calculateResult.ts:114-119 | a higher overall score never gives a lower burnout level |
| Classify.ThresholdExamples | src/entities/boyko-test/model/calculateResult.ts:103-118 | totals 30/25/15 make every phase formed, 29 tension is forming, 8 exhaustion not formed, 70 overall is critical and 19 is low |
| Scoring.CatalogIndex | src/entities/boyko-test/model/calculateResult.ts:19-22 | the index is keyed by exactly the catalog's ids, maps each id to a catalog question carrying it, and has no more entries than the catalog |
| Scoring.CatalogIndexLastWins | src/entities/boyko-test/model/calculateResult.ts:19-22 | when several questions share an id, the index holds the last of them |
| Scoring.BuildIndex | src/entities/boyko-test/model/calculateResult.ts:19-22 | the reduce over the catalog builds exactly that index |
| Scoring.ItemScore | src/entities/boyko-test/model/calculateResult.ts:37-50 | an item contributes at most 1, and 1 iff it is in the catalog, is answered, and the answer differs from its reverse flag (direct: yes; reverse: no); unanswered or unknown ids contribute 0 |
| Scoring.SymptomScore | src/entities/boyko-test/model/calculateResult.ts:35-51 | a symptom score lies in [0, number of its question ids] |
| Scoring.ScoreSymptom | src/entities/boyko-test/model/calculateResult.ts:35-51 | the loop over a symptom's ids with a running counter computes that symptom score |
| Scoring.SymptomScoreFull | src/entities/boyko-test/model/calculateResult.ts:35-51 | a symptom reaches its item count iff every one of its items scores |
| Scoring.SymptomScoreNoAnswers | src/entities/boyko-test/model/calculateResult.ts:41 | with no answers every symptom scores 0 |
| Scoring.PhaseSymptoms | src/entities/boyko-test/model/calculateResult.ts:62-68 | a phase's symptom map only has keys that have a maximum in the symptom-maximum table |
| Scoring.Score | src/entities/boyko-test/model/calculateResult.ts:14-90 | in the reference result the overall score is the sum of the three phase totals and its burnout level is the overall classifier's; each phase's level is its classifier applied to its total, its maximum is the phase constant, and its symptom map only has keys with a maximum |
| Scoring.FindPhase | src/entities/boyko-test/model/calculateResult.ts:54-60 | the result is None iff no phase list contains the symptom; otherwise it is the key of the first list containing it |
| Scoring.LookupPhase | src/entities/boyko-test/model/calculateResult.ts:54-60 | the scan with `break` returns that first matching phase |
| Scoring.UnlistedPhaseIsEmpty | src/entities/boyko-test/model/calculateResult.ts:54-72 | a phase that is no key of the phase table receives no symptom, so its total is 0 |
| Scoring.InitialResult | src/entities/boyko-test/model/calculateResult.ts:25-31 | every phase starts with total 0, an empty symptom map, level not formed and its phase maximum; the overall score is 0 with the level the overall classifier gives 0 |
| Scoring.AddSymptom | src/entities/boyko-test/model/calculateResult.ts:54-72 | a symptom that resolves to no phase leaves the result unchanged; otherwise only the phase it resolves to changes: its total grows by the symptom score and its map gains the symptom's entry, while its level, its maximum and the overall fields stay as they were |
| Scoring.AddSymptomStep | src/entities/boyko-test/model/calculateResult.ts:35-72 | one iteration of the symptom `forEach` (counter loop, `for ... break` phase scan, map write and total update) performs exactly that step |
| Scoring.Accumulated | src/entities/boyko-test/model/calculateResult.ts:34-73 | however many symptoms are processed, every phase keeps level not formed and its phase maximum, and the overall score stays 0 at level low |
| Scoring.AccumulatedIsReference | src/entities/boyko-test/model/calculateResult.ts:34-73 | adding symptoms one by one to the phase each resolves to yields, per phase, the reference total and symptom map |
| Scoring.AccumulateSymptoms | src/entities/boyko-test/model/calculateResult.ts:24-73 | starting from the zero result, the symptom loop leaves every phase with its reference total and symptom map and level not formed |
| Scoring.AssignPhaseLevels | src/entities/boyko-test/model/calculateResult.ts:76-78 | each phase that is a key of the phase table gets the level of its total; every other phase and field is untouched |
| Scoring.CalculateBoykoResult | src/entities/boyko-test/model/calculateResult.ts:14-90 | the source algorithm returns exactly the reference result: each phase total is the sum over the symptoms resolving to it, each level is its classifier applied to its total, and the overall score is the sum of the three totals with its burnout level |
| Scoring.OverallIsResolvedSum | src/entities/boyko-test/model/calculateResult.ts:62-84 | the overall score equals the sum of the scores of all symptoms that resolve to some phase; unresolved symptoms contribute nothing |
| Scoring.OverallBoundedByItems | src/entities/boyko-test/model/calculateResult.ts:81-84 | the overall score is at most the number of question ids in the symptom table |
| Scoring.OverallBoundedByCatalog | src/entities/boyko-test/model/calculateResult.ts:81-84 | when no question id appears twice in the symptom table, the overall score is at most the catalog size |
| Scoring.EmptyAnswers | src/entities/boyko-test/model/calculateResult.ts:25-31 | an empty answer set gives overall score 0, level low, every phase total 0 and not formed, and every symptom score 0 and not formed |
| Scoring.DroppedSymptom | src/entities/boyko-test/model/calculateResult.ts:62-72 | removing a symptom that resolves to no phase from the table leaves the whole result unchanged |
| Scoring.PhaseSymptomsKeys | src/entities/boyko-test/model/calculateResult.ts:62-68 | a symptom name is a key of a phase's symptom map iff it is in the table and resolves to that phase |
| Scoring.PhaseSymptomsLookup | src/entities/boyko-test/model/calculateResult.ts:64-68 | with distinct symptom names, each resolved symptom is recorded under its own phase with its score, level and maximum |
| Scoring.SymptomInScoringDirection | src/entities/boyko-test/model/calculateResult.ts:35-68 | a symptom whose items are all answered in their scoring direction, with maximum equal to its item count, is recorded with score = maximum and level formed |
| Scoring.PhaseSymptomsKeyedByResolvedNames | src/entities/boyko-test/model/calculateResult.ts:62-68 | a phase's symptom map is keyed by exactly the names of the symptoms resolving to it |
| Scoring.PhaseTotalIsSymptomSum | src/entities/boyko-test/model/calculateResult.ts:62-72 | with distinct symptom names, a phase total equals the sum of the scores in its symptom map, each symptom counted once |
| Scoring.PhaseTotalsMatchSymptomMaps | src/entities/boyko-test/model/types.ts:17-22 | in a scored result, each phase's symptom map holds exactly its resolved symptoms, and its total is the sum of their scores |
| Shuffle.GetRandomizedQuestions | src/entities/boyko-test/model/calculateResult.ts:122-130 | whatever index j ∈ [0, i] each step draws, the output has the input's length and is a permutation (same multiset) of it |
| Statistics.Round | src/entities/boyko-test/model/api.ts:129 | Math.round gives the integer n with n − ½ ≤ x < n + ½ |
| Statistics.RoundUnique | src/entities/boyko-test/model/api.ts:129 | that integer is unique |
| Statistics.ToRecord | src/entities/boyko-test/model/api.ts:15-28 | the saved record copies the three phase totals, the overall score and the result; its level string reads back as the result's level; its duration is the nearest whole second of the milliseconds |
| Statistics.StoredSecondsFormula | src/entities/boyko-test/model/api.ts:28 | the stored duration is (milliseconds + 500) div 1000 |
| Statistics.CountsPartition | src/entities/boyko-test/model/api.ts:162-167 | the four level counts plus the unknown-level count add up to the number of rows |
| Statistics.NoUnknownWhenAllKnown | src/entities/boyko-test/model/api.ts:162-167 | when every row has a known level, no row is unknown |
| Statistics.OverallStatistics | src/entities/boyko-test/model/api.ts:142-176 | null or no rows give all zeros (no division); otherwise totalTests is the row count, each average times the count is its column sum, and each bucket counts the rows carrying its level |
| Statistics.DistributionTotal | src/entities/boyko-test/model/api.ts:162-167 | the buckets never sum to more than totalTests, and sum to exactly totalTests when every level is known |
| Statistics.SaveAll | src/entities/boyko-test/model/api.ts:15-28 | saving a batch of results yields, position by position, each result's saved record |
| Statistics.SavedRecordsFillBuckets | src/entities/boyko-test/model/api.ts:15-21 | over records saved from scored results the four buckets add up to totalTests |
| Statistics.SumBounds | src/entities/boyko-test/model/api.ts:156-159 | when every value of a column lies in [lo, hi], its sum lies in [n·lo, n·hi] |
| Statistics.AverageWithinBounds | src/entities/boyko-test/model/api.ts:169-175 | every average lies between any lower and any upper bound of its column, so between the column's minimum and maximum |
| Statistics.ThreeRecordExample | src/entities/boyko-test/model/api.ts:153-175 | rows with overall 10, 50, 70 at levels low, high, critical give 3 tests, average 130/3 and distribution 1/0/1/1 |
| Statistics.LevelDistribution | src/entities/boyko-test/model/api.ts:96-107 | the returned object always holds the four known keys |
| Statistics.Tallies | src/entities/boyko-test/model/api.ts:103-105 | the `forEach` over the rows always leaves the four known keys in the object |
| Statistics.TalliesKnown | src/entities/boyko-test/model/api.ts:96-105 | each known bucket holds the number of rows at that level |
| Statistics.TalliesUnknown | src/entities/boyko-test/model/api.ts:103-105 | any other key is present iff some row carries that level, and then its value is NaN |
| Statistics.TalliesAllKnown | src/entities/boyko-test/model/api.ts:96-105 | when every level is known, the object has exactly the four keys |
| Statistics.DistributionsAgree | src/entities/boyko-test/model/api.ts:96-107 | the distribution endpoint reports the same known-level counts as the overall statistics, and the same whole distribution when every level is known |
| Statistics.Durations | src/entities/boyko-test/model/api.ts:121-123 | the averaged durations are non-zero and no more numerous than the rows |
| Statistics.DurationsContents | src/entities/boyko-test/model/api.ts:121-123 | a value is averaged iff it is non-zero and some row carries it as its duration |
| Statistics.DurationsCount | src/entities/boyko-test/model/api.ts:121-123 | every row with a truthy duration is kept exactly once: a non-zero value occurs as many times as rows carry it, and 0 never occurs |
| Statistics.DurationsLength | src/entities/boyko-test/model/api.ts:121-126 | the number of averaged durations, the mean's denominator, is the number of rows whose duration is present and non-zero |
| Statistics.AverageSessionDuration | src/entities/boyko-test/model/api.ts:121-129 | 0 when no truthy duration remains, otherwise the mean of the truthy durations rounded to the nearest integer, halves up |
| Statistics.RoundQuotient | src/entities/boyko-test/model/api.ts:124-129 | rounding s/n half up equals (2s + n) div 2n |
| Statistics.RoundedAverageFormula | src/entities/boyko-test/model/api.ts:124-129 | the average session duration equals (2·sum + n) div 2n over the n truthy durations |
| Statistics.Reverse | src/entities/boyko-test/model/api.ts:70 | reversing keeps the length and puts element i at position n−1−i |
| Statistics.OldestFirst | src/entities/boyko-test/model/api.ts:70 | a null answer gives the empty list; otherwise the fetched list is reversed |
| Statistics.OldestFirstAscending | src/entities/boyko-test/model/api.ts:58-70 | rows fetched newest first come back oldest first |
| Statistics.ReverseInvolution | src/entities/boyko-test/model/api.ts:70 | reversing twice gives back the fetched list |
| DemographicForm.ValidateConsent | src/entities/boyko-test/ui/DemographicForm.tsx:33-39 | passes iff consent is given; on failure the errors become just the consent error, on success they are unchanged |
| DemographicForm.DemographicErrors | src/entities/boyko-test/ui/DemographicForm.tsx:41-70 | a given age outside [18, 100] gives an age error: "enter age" for 0, the range error otherwise; a given negative experience gives its error; each falsy position, work format, work hours and overtime gives its own error; consent, gender and other position are never keys |
| DemographicForm.NumberErrors | src/entities/boyko-test/ui/DemographicForm.tsx:44-54 | the age and experience checks set only the age and experience keys, each exactly under its condition and with its message |
| DemographicForm.ChoiceErrors | src/entities/boyko-test/ui/DemographicForm.tsx:56-70 | the required-choice checks set only their four keys, each exactly when its value is falsy, with its message |
| DemographicForm.ValidateDemographics | src/entities/boyko-test/ui/DemographicForm.tsx:41-74 | the errors are replaced by the computed ones, and the step passes iff they are empty |
| DemographicForm.ValidDemographicsExactly | src/entities/boyko-test/ui/DemographicForm.tsx:44-73 | the step passes iff any given age is in [18, 100], any given experience is ≥ 0 and the four required choices are made |
| DemographicForm.InitialFormRejected | src/entities/boyko-test/ui/DemographicForm.tsx:23-70 | the initial form fails the consent step, and the demographics step reports exactly the four required-choice errors |
| DemographicForm.Get | src/entities/boyko-test/ui/DemographicForm.tsx:9-19 | every field's value has the shape its input produces |
| DemographicForm.Set | src/entities/boyko-test/ui/DemographicForm.tsx:91-94 | writing a field makes it hold the new value and leaves every other field as it was |
| DemographicForm.HandleChange | src/entities/boyko-test/ui/DemographicForm.tsx:90-98 | only the edited field changes; that field's error is cleared, and every other error is kept with its message |

## Left out

- Datastore calls. The queries, inserts, ordering, `.limit(days)`, error logging
  and re-throwing are I/O against an external service. Every statistics
  operation starts from the already-fetched rows, and `None` stands for a `null`
  answer. `getOverallStats` only returns the fetched rows, so it has no logic to
  model.
- The `user_agent` field and the demographic pass-through fields of the saved
  record. They are an environment read and plain copies.
- Page rendering, navigation, the question flow and timing (`Date.now()`). These
  are presentation code; the session length is a parameter of `ToRecord`.
- The consent and demographics submit handlers. Their only job is to move to the
  next step or call back when the validator passes.
- `Math.random`. Each shuffle step takes an arbitrary index in `[0, i]`, and the
  distribution of the permutations is not modelled.
- Floating point. Averages are exact rationals (`real`), and percentages are
  compared by exact cross-multiplication. For the small symptom maxima of the
  inventory, no score/maximum ratio lies near enough to 85 % or 50 % for binary
  rounding to change a level. `Math.round` is applied to the exact mean.
- The concrete question catalog and mapping tables. They are parameters.
- The phase `maxScore` constants (28/28/27). They are carried as given, and no
  relation to the thresholds or to the statistics page's 36/30/27 is claimed.
- NaN numbers in the form. The age and experience inputs turn NaN into
  `undefined`, so the form fields are optional integers.
- Error clearing. `handleChange` keeps the key with an `undefined` value. The
  model removes the key instead. The form only ever reads an error's truthiness,
  so the two behave the same.
- Keys the distribution object inherits (such as `toString` or `__proto__`). An
  unknown level is always treated as a fresh key.
