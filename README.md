# FMS smart coach — a Dafny model of its core

The system helps a coach score a student's Functional Movement Screen
(FMS) and produces a corrective workout from it. This project models the
parts of it that make decisions:

- **Scoring brain (Python).**
  - `analyze_fms_profile` turns a nested profile into per-test effective
    scores, using integer decision trees and a first-match "traffic light"
    ladder that picks a status and a target level (`FmsAnalyzer`).
  - The retriever filters the exercise knowledge base by that level, with a
    ±1 fallback and a bounded random sample (`Retriever`).
  - The generator builds the fault summary for the prompt and checks its
    guards before calling the language model (`Generator`).
  - Two FastAPI servers wrap the pipeline: `main.py` with a response cache
    (`MainServer`) and `src/api/main.py` with a pain override (`ApiMain`).
  - `Http` and `Pipeline` hold the request, response and stage types that
    these modules share.
- **Assessment payload (React).**
  - The assessment screen builds a schema-shaped draft, edits one field at
    a time, persists it to session storage on every change, and submits it
    (`FmsAssessment`).
  - The schema-driven adapter forces the scores to zero and defaults the
    observations (`FmsAdapter`, over the abstract schema in `FmsSchema`).
  - The UI-to-API key table renames the scores for the back end (`ApiService`).
- **Small transforms and screens.**
  - The Excel-to-JSON ingestion splits cells and builds knowledge-base
    entries with running ids (`Ingest`).
  - The workout report looks a workout up by assessment id and picks the
    difficulty colour (`WorkoutDetail`).
  - The history list sorts assessments newest first, in place (`ProgressHistory`).
  - The sign-up and enrolment forms validate their input and act on it
    (`SignupView`, `EnrollStudent`).

Shared foundations:

- `Outcomes` holds Option and Result.
- `Dicts` holds insertion-ordered dictionaries, with the assignment
  semantics of Python and JavaScript objects.
- `Text` holds decimal printing, strip/trim, lower and title.
- `Js` holds JavaScript values: truthiness, `||`, property reads that
  throw on undefined and null, `parseInt`, and JSON stringify/parse.
- `Py` holds Python values: `str`/`repr`, `<` between values, comparisons
  against integers, subscripts and the errors Python raises.

State that the source changes in place is modelled as classes with
`modifies` clauses:

- the response cache;
- the assessment screen;
- the workout, history, sign-up and enrolment screens.

The ingestion run is a method whose nested loops build the knowledge base
in local variables; it has no object state of its own.

Loops stay loops with invariants. Examples are the analyzer's score
collection, the adapter's nested `forEach`, the fault formatter, the
ingestion loops and the in-place history sort. Each is proved against a
specification function, and the properties are proved about that function.

Some things are parameters rather than code:

- the language model, `random.sample` (as a draw sequence) and the
  knowledge-base file;
- the Excel sheets (rows of optional cells) and the movement schema file;
- the HTTP client and Firebase calls, given as the outcome of each call;
- date parsing and locale formatting.

## Model

| member | source | states |
|---|---|---|
| FmsAnalyzer.EvalAny | src/logic/fms_analyzer.py:35-42 | a chain of `or` probes is false only if every probe is false and true only if some probe is true, stopping at the first one that holds or raises |
| FmsAnalyzer.EvalAll | src/logic/fms_analyzer.py:124 | a chain of `and` probes is true only if every probe is true and false only if some probe is false |
| FmsAnalyzer.EvalRules | src/logic/fms_analyzer.py:28-158 | a test's rules are tried in order; any score they return is the fallback or one of the rules' scores |
| FmsAnalyzer.TreeFor | src/logic/fms_analyzer.py:28-161 | a test name without a decision tree has no rules and falls back to 3; every tree's scores lie in 1..3 |
| FmsAnalyzer.CalculateScoreFromFaults | src/logic/fms_analyzer.py:10-161 | every score the calculator returns lies in 0..3 |
| FmsAnalyzer.PainReportedScoresZero | src/logic/fms_analyzer.py:19-22 | a positive `pain.pain_reported` scores 0 before any test-specific rule |
| FmsAnalyzer.ClearingPainScoresZero | src/logic/fms_analyzer.py:24-25 | a truthy `clearing_pain` scores 0 for every test |
| FmsAnalyzer.UnknownTestScoresThree | src/logic/fms_analyzer.py:160-161 | a test name outside the seven known tests scores 3 unless a pain check fires first |
| FmsAnalyzer.OverheadSquatNeverTwo | src/logic/fms_analyzer.py:35-51 | the overhead squat scores only 0, 1 or 3: the score-2 branch is unreachable |
| FmsAnalyzer.OverheadSquatRules | src/logic/fms_analyzer.py:35-51 | the squat's own rules give 1 or the fallback 3, never the 2 of the heels-lift rule |
| FmsAnalyzer.SubsumedRuleNeverFires | src/logic/fms_analyzer.py:39-48 | a rule that re-tests one probe of an earlier `or` rule, as the heels-lift rule does, can never fire: the result is the earlier rule's score or the fallback |
| FmsAnalyzer.SumValues | src/logic/fms_analyzer.py:176 | `sum(v.values())` succeeds exactly when every value is a number |
| FmsAnalyzer.HasSubInputsMeaning | src/logic/fms_analyzer.py:173-178 | the sub-input flag is true exactly when some dict-valued field sums above 0 and no earlier dict fails to sum; it is false exactly when every dict-valued field sums to at most 0 |
| FmsAnalyzer.ScanSubInputs | src/logic/fms_analyzer.py:173-178 | the scan loop with its `break` computes the sub-input flag, TypeError included |
| FmsAnalyzer.SelectScore | src/logic/fms_analyzer.py:169-188 | one test's effective score: the manual score (default 2) when manual mode is on or there are no sub-inputs, otherwise the calculated score |
| FmsAnalyzer.EffectiveScoresFromShape | src/logic/fms_analyzer.py:164-188 | the loop writes exactly one entry per profile key other than `use_manual_scores`, each that test's effective score, and keeps what was already written |
| FmsAnalyzer.EffectiveScoresShape | src/logic/fms_analyzer.py:164-188 | over a whole profile, `effective_scores` has one entry per test and skips the flag |
| FmsAnalyzer.EffectiveScoresFromOk | src/logic/fms_analyzer.py:166-188 | the loop fails exactly when some test's own score selection fails |
| FmsAnalyzer.EffectiveScoresFromStep | src/logic/fms_analyzer.py:166-188 | one loop step: the flag is skipped, an error stops the loop, and a score is put into the dict |
| FmsAnalyzer.CollectScores | src/logic/fms_analyzer.py:164-188 | the loop that fills `effective_scores` in place computes the specification's selection |
| FmsAnalyzer.AnalysisDict | src/logic/fms_analyzer.py:195-217 | the returned dict has the keys `status`, `target_level`, `reason` and `effective_scores`, in that order |
| FmsAnalyzer.Min3 | src/logic/fms_analyzer.py:206-210 | `min` succeeds exactly when the three scores are all numbers or all strings; it returns one of them that none is `<`, keeping the first unless a later one is smaller; otherwise it raises the TypeError of `b < a`, or of `c` against the running minimum, naming the real operand types |
| FmsAnalyzer.EitherAtMostOne | src/logic/fms_analyzer.py:198-203 | `a <= 1 or b <= 1` on numbers, and a TypeError when the first is not a number |
| FmsAnalyzer.PatternStatus | src/logic/fms_analyzer.py:212-217 | a numeric minimum gives PATTERN exactly when it is at most 1, STRENGTH exactly when it is 2, and POWER otherwise; any other minimum raises the TypeError of `min_pattern <= 1` |
| FmsAnalyzer.Ladder | src/logic/fms_analyzer.py:197-217 | the rungs below STOP never give STOP |
| FmsAnalyzer.TrafficLight | src/logic/fms_analyzer.py:193-217 | STOP exactly when some effective score is 0; the target level and reason belong to the status, and the level is one of 0, 1, 3, 5, 7, 9 |
| FmsAnalyzer.TrafficLightLadder | src/logic/fms_analyzer.py:197-217 | with numeric scores and no zero, each status holds exactly when its rung applies and no rung above it does |
| FmsAnalyzer.LadderMeaning | src/logic/fms_analyzer.py:198-217 | on numeric scores the ladder below STOP always succeeds and picks mobility, stability, then pattern, strength or power by the lowest pattern score |
| FmsAnalyzer.TextPatternScoresRaise | src/logic/fms_analyzer.py:206-212 | pattern scores given as strings pass `min`, which orders strings, and then fail at `min_pattern <= 1` with the TypeError for a 'str' and an 'int' |
| FmsAnalyzer.Analyze | src/logic/fms_analyzer.py:3-217 | `analyze_fms_profile`: the effective scores, then the traffic light; its properties are stated by EffectiveScoresShape, EffectiveScoresFromOk, TrafficLight and TrafficLightLadder |
| FmsAnalyzer.AnalyzeFmsProfile | src/logic/fms_analyzer.py:3-217 | `analyze_fms_profile` fills the scores in place and then applies the traffic light, as the specification function says |
| FmsAdapter.Adapt | src/adapter/fmsAdapter.js:10-11 | `adaptFMSPayload` throws exactly when the payload itself is undefined or null, with the TypeError of reading `assessment_input` |
| FmsAdapter.AdaptFmsPayload | src/adapter/fmsAdapter.js:10-55 | the two nested `forEach` loops build, in place, the payload the specification function describes |
| FmsAdapter.AdaptMovement | src/adapter/fmsAdapter.js:18-51 | the movement loop body builds that movement's entry: score fields, then one object per section |
| FmsAdapter.AdaptSection | src/adapter/fmsAdapter.js:38-48 | the section loop body builds the section's observation object |
| FmsAdapter.ObservationDefaults | src/adapter/fmsAdapter.js:43-44 | an absent or falsy observation is sent as 0, and an integer observation is sent unchanged |
| FmsAdapter.ObservationNotANumber | src/adapter/fmsAdapter.js:43-44 | a non-numeric string observation is sent as NaN, not 0 |
| FmsAdapter.ScoredPuts | src/adapter/fmsAdapter.js:24-31 | assigning `l_score` and `r_score` after `score` keeps that key order |
| FmsAdapter.HeadKeysShape | src/adapter/fmsAdapter.js:24-35 | the score fields at the head of a movement's entry are distinct and are only `score`, `l_score`, `r_score` and `clearing_pain` |
| FmsAdapter.SectionDataAppends | src/adapter/fmsAdapter.js:41-45 | with distinct observation keys, each assignment appends a new key |
| FmsAdapter.SectionShape | src/adapter/fmsAdapter.js:39-45 | a section holds exactly its observation keys, in schema order, each with its parsed value |
| FmsAdapter.MovementDataAppends | src/adapter/fmsAdapter.js:38-49 | with section ids distinct from the score fields and from each other, the section loop only appends |
| FmsAdapter.MovementKeysDistinct | src/adapter/fmsAdapter.js:24-49 | in a well-formed movement, the score fields and the section ids are all distinct |
| FmsAdapter.MovementKeys | src/adapter/fmsAdapter.js:24-49 | a movement's entry holds its score fields followed by its section ids |
| FmsAdapter.MovementScores | src/adapter/fmsAdapter.js:24-35 | `score` is 0; `l_score` and `r_score` are 0 exactly for an asymmetrical movement; `clearing_pain` is `Boolean(inputScores.clearing_pain)` exactly for a movement with a clearing test |
| FmsAdapter.MovementSections | src/adapter/fmsAdapter.js:48 | each section id maps to that section's observation object |
| FmsAdapter.AdaptedAppends | src/adapter/fmsAdapter.js:12-52 | with movement ids distinct from the flag and from each other, the movement loop only appends |
| FmsAdapter.AdaptedShape | src/adapter/fmsAdapter.js:12-54 | the payload is `use_manual_scores: false` followed by one entry per schema movement, in schema order; no other input key appears |
| FmsAdapter.MissingInputIsEmpty | src/adapter/fmsAdapter.js:11-18 | a missing or falsy `assessment_input` adapts exactly like an empty one |
| FmsAssessment.CreateInitialState | src/components/FMSAssessment.jsx:17-44 | the nested loops build, in place, the initial draft of the specification function |
| FmsAssessment.InitialMovementOf | src/components/FMSAssessment.jsx:23-40 | one movement's initial entry: the score literal, then one object per section |
| FmsAssessment.InitialSectionOf | src/components/FMSAssessment.jsx:36-39 | a section starts as `{}` and gets each observation key set to 0 |
| FmsAssessment.InitialSectionIsAdaptedEmpty | src/components/FMSAssessment.jsx:36-39 | an initial section equals the adapter's section for an empty input |
| FmsAssessment.InitialMovementIsAdaptedEmpty | src/components/FMSAssessment.jsx:23-40 | an initial movement equals the adapter's movement for an empty input |
| FmsAssessment.InitialIsAdaptedEmpty | src/components/FMSAssessment.jsx:17-44 | `createInitialState()` equals `adaptFMSPayload({assessment_input: {}})` |
| FmsAssessment.InitialStateShape | src/components/FMSAssessment.jsx:18-41 | the initial draft is `use_manual_scores: false` followed by one entry per movement, in schema order |
| FmsAssessment.InitialMovementShape | src/components/FMSAssessment.jsx:23-40 | a movement's initial `score` is 0; `l_score` and `r_score` are 0 exactly when it is asymmetrical; `clearing_pain` is false exactly when it has a clearing test; each section is an object |
| FmsAssessment.InitialSectionShape | src/components/FMSAssessment.jsx:36-39 | every observation of a section starts at 0, in schema order |
| FmsAssessment.LoadDraft | src/components/FMSAssessment.jsx:54-62 | the saved draft of `useState`'s initialiser: the parsed text, or the initial state for missing, empty or unparsable text; stated by LoadFallsBack, ReloadNormalises and ReloadReturnsDraft |
| FmsAssessment.Load | src/components/FMSAssessment.jsx:54-62 | the draft is loaded from saved text as the specification function says |
| FmsAssessment.ReloadNormalises | src/components/FMSAssessment.jsx:57-72 | text written by the persisting effect reads back as the draft, normalised as JSON does |
| FmsAssessment.ReloadReturnsDraft | src/components/FMSAssessment.jsx:57-72 | a draft of plain JSON data reads back unchanged |
| FmsAssessment.LoadFallsBack | src/components/FMSAssessment.jsx:56-61 | missing, empty and unparsable saved text all give the initial draft |
| FmsAssessment.UpdatedObservation | src/components/FMSAssessment.jsx:77-86 | the updater throws exactly when the draft, or its entry for the movement, is undefined or null |
| FmsAssessment.UpdatedTopLevel | src/components/FMSAssessment.jsx:90-96 | the updater throws exactly when the draft is undefined or null |
| FmsAssessment.UpdateObservationFrame | src/components/FMSAssessment.jsx:76-87 | `updateObservation` sets `payload[m][s][k]` and leaves every other movement, section and key as it was |
| FmsAssessment.UpdateObservationKeepsKeys | src/components/FMSAssessment.jsx:77-86 | on a draft that has the movement, the update keeps the top-level key order |
| FmsAssessment.UpdateTopLevelFrame | src/components/FMSAssessment.jsx:89-97 | `updateTopLevel` sets `payload[m][k]` and leaves everything else as it was |
| FmsAssessment.OrderedPayload | src/components/FMSAssessment.jsx:106-111 | building the submitted object throws exactly when the draft is undefined or null |
| FmsAssessment.OrderedPayloadShape | src/components/FMSAssessment.jsx:106-111 | the submitted object is `student_id` first, then every other draft entry unchanged and in order, then `use_manual_scores` last |
| FmsAssessment.CatchOutcome | src/components/FMSAssessment.jsx:129-138 | the `catch` block: an undefined or null error escapes, otherwise the message is picked by "500" in the message or status 500; stated by ClientErrorClassified, Status500Unavailable and NullishErrorEscapes |
| FmsAssessment.SubmitResult | src/components/FMSAssessment.jsx:114-141 | the rest of `handleSubmit`: navigation with the scores, the raw inputs and the metadata, or the catch block's outcome; stated by NullResultAfterRemoval and SuccessRemovesDraft |
| FmsAssessment.ClientErrorClassified | src/components/FMSAssessment.jsx:132-138 | an `Error` is classified by its message alone: the unavailable message exactly when it contains "500" |
| FmsAssessment.Status500Unavailable | src/components/FMSAssessment.jsx:132-135 | an error with status 500 gets the unavailable message whatever its message says |
| FmsAssessment.NullishErrorEscapes | src/components/FMSAssessment.jsx:129-132 | a rejection with undefined or null escapes the handler, because reading `err.message` throws |
| FmsAssessment.NullResultAfterRemoval | src/components/FMSAssessment.jsx:114-137 | a request that resolves with null or undefined removes the draft and then fails with the generic message |
| FmsAssessment.SuccessRemovesDraft | src/components/FMSAssessment.jsx:114-128 | a submission that navigates has removed the saved draft |
| FmsAssessment.AssessmentScreen.constructor | src/components/FMSAssessment.jsx:51-73 | mounting loads the draft from storage, and the effect writes it back under `fms_state_<id>` |
| FmsAssessment.AssessmentScreen.UpdateObservation | src/components/FMSAssessment.jsx:71-87 | the update replaces the draft and the effect persists it; when the updater throws, the model keeps the draft and storage as they were |
| FmsAssessment.AssessmentScreen.UpdateTopLevel | src/components/FMSAssessment.jsx:71-97 | the update replaces the draft and the effect persists it; when the updater throws, the model keeps the draft and storage as they were |
| FmsAssessment.AssessmentScreen.BeginSubmit | src/components/FMSAssessment.jsx:99-111 | the busy flag is raised, the error cleared, and the submitted object built |
| FmsAssessment.AssessmentScreen.FinishSubmit | src/components/FMSAssessment.jsx:114-141 | the draft is removed on resolution before the result is read, the catch block picks the message, and the busy flag is lowered in every case |
| ApiService.ApiPayload | src/services/api.js:4-12 | building the payload throws exactly when `scores` is undefined or null, with the TypeError of reading `scores.squat` |
| ApiService.TableIsBijection | src/services/api.js:4-12 | the renaming pairs seven distinct movement ids with seven distinct API keys |
| ApiService.PayloadShape | src/services/api.js:4-12 | the payload has exactly the seven API keys, each holding its movement's value unchanged, and copies no other key |
| ApiService.BodyDropsMissingScores | src/services/api.js:20 | in the JSON body a score the input lacks is dropped, and one it has is sent in its JSON form |
| ApiService.GenerateWorkoutPlan | src/services/api.js:1-32 | a null or undefined `scores` rejects with the TypeError of reading `scores.squat` |
| ApiService.NotOkThrows | src/services/api.js:23-31 | a response that is not ok always rejects with "Network response was not ok", whatever its body |
| ApiService.OkReturnsBody | src/services/api.js:27 | an ok response with JSON text resolves to the parsed body |
| Http.ReferralShape | main.py:93-98 | a referral body is always red with no exercises; only the summary varies |
| Http.RequestDictShape | main.py:43-75 | the request model's dict has no `pain_present` entry and starts with the integer `deep_squat` |
| Retriever.LoadKnowledgeBase | src/rag/retriever.py:9-13 | loading raises FileNotFoundError "Database not found at data/processed/exercise_knowledge_base.json" exactly when the file is missing, and otherwise returns its entries |
| Retriever.ExactLevel | src/rag/retriever.py:40-43 | the exact-level candidates are the entries whose `difficulty_level` equals the target: every such entry as often as it occurs in the knowledge base, and no other |
| Retriever.NearLevel | src/rag/retriever.py:49 | `abs(level - target) <= 1` succeeds exactly when the level is a number, and then says whether it is at most one level away |
| Retriever.NearbyLevels | src/rag/retriever.py:46-50 | the fallback candidates are every entry at most one level away, as often as it occurs, and no other; the comprehension raises unless every level is a number |
| Retriever.Sample | src/rag/retriever.py:53 | `random.sample` returns exactly `k` items drawn from the pool without repeats |
| Retriever.SampleMembers | src/rag/retriever.py:53 | every sampled item comes from the pool |
| Retriever.StopPassesThrough | src/rag/retriever.py:23-30 | a STOP analysis returns its reason with no data, and never reads the knowledge base |
| Retriever.MissingKnowledgeBase | src/rag/retriever.py:32-35 | a missing knowledge base raises only once the analysis has passed STOP |
| Retriever.Candidates | src/rag/retriever.py:40-50 | the exact-level entries when there are any; otherwise exactly the fallback list, which succeeds iff every level is a number and then holds an entry iff it is at most one level away; always taken from the knowledge base without repeats |
| Retriever.GetExercisesByProfile | src/rag/retriever.py:15-59 | a successful selection comes from a passing analysis and a loaded knowledge base, and is at most three of its entries without repeats; STOP, the missing file, the candidate pool and the sample size are stated by StopPassesThrough, MissingKnowledgeBase, SuccessSelection and RejectsBareScore |
| Retriever.SuccessSelection | src/rag/retriever.py:32-59 | on success the analysis is passed through, and `min(len(candidates), 3)` entries are chosen, a sub-multiset of the candidates and so of the knowledge base. The pool is the exact level when it has entries; otherwise it is the fallback list, which holds every entry one level away or closer and no other |
| Retriever.RejectsBareScore | src/rag/retriever.py:23 | a profile whose first test is a bare score fails in the analyzer with the `.items()` AttributeError |
| MainServer.KeyOf | main.py:80 | the cache key has one entry for each key of the scores dict |
| MainServer.KeyOfContents | main.py:80 | the cache key holds each score under its key |
| MainServer.KeyIgnoresOrder | main.py:80 | the cache key depends only on the contents, not on the key order, as `sort_keys=True` makes it |
| MainServer.KeySeparatesContents | main.py:80 | dicts that differ under some key get different cache keys |
| MainServer.ScoresShape | main.py:75-76 | the scores are the request's dict with `pain_present: False` appended |
| MainServer.EvaluationInputs | main.py:110-111 | building the evaluation input succeeds exactly when every exercise has a name and a description and the plan has a title and a summary |
| MainServer.Handle | main.py:68-117 | the cached endpoint as a function of the cache: cache hit, retriever error, STOP referral, generator error, or the plan cached before the evaluation input is built; its properties are stated by CacheHit, StopIsNotCached, ErrorsAre500 and PlanIsCachedThenRepeated |
| MainServer.Server.constructor | main.py:40 | the cache starts empty |
| MainServer.Server.GenerateWorkout | main.py:68-117 | the handler's response and its new cache are those of the specification function |
| MainServer.CacheHit | main.py:82-84 | a cache hit returns the stored plan whatever the retriever and generator would do, and changes nothing |
| MainServer.StopIsNotCached | main.py:92-98 | a STOP becomes a referral carrying the retriever's message, and nothing is cached |
| MainServer.ErrorsAre500 | main.py:87-117 | retriever and generator exceptions become HTTP 500 with the exception's text, and nothing is cached |
| MainServer.PlanIsCachedThenRepeated | main.py:82-114 | a generated plan is cached under the request's key, even when the evaluation step then fails, and every later identical request returns that plan |
| MainServer.EvaluationFailureAfterCaching | main.py:107-117 | a failure while building the evaluation input is a 500 "Generator Error", with the plan already cached |
| MainServer.MissingTitle | main.py:111 | with no exercises, a plan without `session_title` fails with a KeyError naming that key |
| MainServer.BareScoreIs500 | main.py:87-90 | with the real retriever, an uncached profile whose first test is a bare score is a 500 "Retriever Error" |
| MainServer.FlatScoresAlwaysFail | main.py:75-90 | with the real retriever every uncached request is a 500 "Retriever Error", and the cache never gains an entry |
| ApiMain.GenerateWorkout | src/api/main.py:28-70 | the uncached endpoint: pain referral first, then retriever error, STOP referral, generator error or the plan; its properties are stated by PainOverrides, ResponsesByOutcome and AgreesWithCachedEndpoint |
| ApiMain.DefaultRequest | src/api/main.py:25 | a request that leaves `pain_present` out has no pain |
| ApiMain.PainOverrides | src/api/main.py:37-44 | reported pain gives the referral, whatever the retriever and generator would do |
| ApiMain.ResponsesByOutcome | src/api/main.py:46-70 | without pain, each outcome of the retriever and generator maps to its response: retriever error 500, STOP referral, generator error 500, or the plan |
| ApiMain.FlatScoresAlwaysFail | src/api/main.py:35-50 | with the real retriever a request without pain always fails, because the analyzer calls `.items()` on the integer `deep_squat` |
| ApiMain.AgreesWithCachedEndpoint | src/api/main.py:28-70 | on a fresh request without pain this endpoint answers as the cached one does, except where the cached one fails after the generator succeeded |
| Generator.ListingMeaning | src/rag/generator.py:36-66 | a filtered listing holds exactly the renderings of the kept items, and is empty exactly when nothing is kept |
| Generator.Block | src/rag/generator.py:65-66 | a test's block starts with `**` |
| Generator.CategoryLinesMeaning | src/rag/generator.py:45-61 | exactly the severe faults of a category (numeric severity of 3 or more) are listed, one line each; no severe fault means no lines |
| Generator.CategoryPainMeaning | src/rag/generator.py:52-59 | a category sets the pain flag exactly when one of its severe faults is a `pain_reported` fault not caught by an earlier `elif` |
| Generator.TestLinesEmpty | src/rag/generator.py:41-62 | a test has lines exactly when one of its dict-valued fields has a severe fault |
| Generator.TestPainMeaning | src/rag/generator.py:43-59 | a test sets the pain flag exactly when one of its categories does |
| Generator.BlocksMeaning | src/rag/generator.py:36-66 | exactly the reported tests get a block, in input order |
| Generator.PainDetectedMeaning | src/rag/generator.py:36-59 | the pain flag is set exactly when one of the listed tests sets it |
| Generator.ReportedIffSevere | src/rag/generator.py:38-63 | a test with a `score` key is reported exactly when it has a severe fault in a nested category |
| Generator.PainIsSevere | src/rag/generator.py:47-59 | the pain flag implies a listed severe fault |
| Generator.BlocksVersusNoFaults | src/rag/generator.py:66-71 | a non-empty list of blocks never joins to the no-faults sentence or to the pain banner |
| Generator.NoFaultsIffNoSevere | src/rag/generator.py:68-71 | the summary is "No severe faults (>=3/4) detected." exactly when no listed test has a severe fault |
| Generator.PainBannerIffPain | src/rag/generator.py:68-69 | the summary opens with the pain banner exactly when a listed test has a severe `pain_reported` fault |
| Generator.CategoryFaults | src/rag/generator.py:44-61 | the inner loop collects a category's lines and its pain flag as the specification functions say |
| Generator.TestFaults | src/rag/generator.py:41-62 | the loop over one test's fields collects its lines and its pain flag |
| Generator.FormatFaultsForPrompt | src/rag/generator.py:29-71 | `format_faults_for_prompt` computes the specification's summary text |
| Generator.InsertByPermutes | src/rag/generator.py:99 | inserting into a sorted list adds exactly that one item |
| Generator.InsertBySorted | src/rag/generator.py:99 | inserting into a sorted list keeps it sorted |
| Generator.SortByCorrect | src/rag/generator.py:99 | the sort returns the same items, ordered by key |
| Generator.SortExercises | src/rag/generator.py:99 | `sorted` succeeds exactly when there is at most one exercise or the names are all numbers or all strings; otherwise it raises the TypeError of `<` on a neighbouring pair whose types do not compare, naming those types |
| Generator.NeighboursComparable | src/rag/generator.py:99 | neighbouring names all compare exactly when there is at most one, or all are numbers, or all are strings |
| Generator.SortExercisesCorrect | src/rag/generator.py:99 | a successful sort is a permutation in which every two names compare and no later name is `<` an earlier one |
| Generator.GenerateWorkoutPlan | src/rag/generator.py:74-174 | `generate_workout_plan`: the three guards, the sort, the exercise text, the fault summary, then the model; its properties are stated by GuardsBeforeModel, ModelCallShape and HandleReply |
| Generator.JoinTags | src/rag/generator.py:114 | `', '.join(tags)` succeeds on a list of strings, and fails on a value that is not a list, a string or a dict |
| Generator.HandleReply | src/rag/generator.py:154-175 | a reply without `difficulty_color` gets "Yellow" and is otherwise unchanged; a reply with one is returned as is; a failure becomes the red Generation Error plan |
| Generator.GuardsBeforeModel | src/rag/generator.py:75-96 | the guards fire in order (missing key, then STOP, then no exercises), each returns its fixed plan, and none of them depends on the model |
| Generator.ModelCallShape | src/rag/generator.py:98-167 | when the model is called it sees the exercises in name order and the formatted faults, and its reply always ends up with a `difficulty_color` |
| Ingest.FirstSplit | src/ingest/excel_to_json_mapper.py:54 | the first position at or after `j` where `,\s*(?![^()]*\))` matches, or the end of the cell, with no match before it |
| Ingest.RawSplit | src/ingest/excel_to_json_mapper.py:54 | `re.split` always yields at least one piece |
| Ingest.Clean | src/ingest/excel_to_json_mapper.py:55 | the cleaned pieces are non-empty and have no white space at either end |
| Ingest.CleanAppend | src/ingest/excel_to_json_mapper.py:55 | the comprehension keeps order: one more piece at the end appends its stripped text, unless that is empty |
| Ingest.CleanMembers | src/ingest/excel_to_json_mapper.py:55 | the cleaned names are exactly the non-empty stripped pieces |
| Ingest.UnsplitCell | src/ingest/excel_to_json_mapper.py:54-55 | a cell with no splitting comma is one exercise, its stripped text, or none when blank |
| Ingest.GroupedCommaKept | src/ingest/excel_to_json_mapper.py:54 | a comma inside a parenthesised group never splits |
| Ingest.RawSplitFirstPiece | src/ingest/excel_to_json_mapper.py:54 | the first piece ends right before the first splitting comma and contains none itself |
| Ingest.SplitExample | src/ingest/excel_to_json_mapper.py:51-55 | "Row (1, 2), Dip" splits into "Row (1, 2)" and "Dip": the comma inside the parentheses does not split, before or after the clean-up |
| Ingest.Build | src/ingest/excel_to_json_mapper.py:57-83 | appending the entries of the items, with the running count, gives one entry per item |
| Ingest.BuildAppend | src/ingest/excel_to_json_mapper.py:82-83 | appending after a run of items continues the count |
| Ingest.StripAll | src/ingest/excel_to_json_mapper.py:37 | stripping the column names keeps their number |
| Ingest.Ingestion | src/ingest/excel_to_json_mapper.py:10-90 | the ingestion outcome: missing file, read failure, missing EXERCISE column, or the entries built from the sheet with their count; its properties are stated by IdsDistinct, CountIsLength, EntryShape and the row and level lemmas |
| Ingest.RunIngestion | src/ingest/excel_to_json_mapper.py:10-84 | the nested row, level and exercise loops compute the specification's outcome: file missing, read failure, missing EXERCISE column, or the knowledge base with its count |
| Ingest.IngestRow | src/ingest/excel_to_json_mapper.py:43-51 | a row dropped by `dropna` adds nothing; any other row adds its levels' entries |
| Ingest.IngestLevels | src/ingest/excel_to_json_mapper.py:46-51 | `range(1, 11)` appends the entries of each level column in turn |
| Ingest.LevelStep | src/ingest/excel_to_json_mapper.py:46-51 | one more level appends that level's cell to what the earlier levels gave |
| Ingest.AppendEntries | src/ingest/excel_to_json_mapper.py:57-83 | the innermost loop appends one entry per exercise of a cell, counting on |
| Ingest.AppendStep | src/ingest/excel_to_json_mapper.py:82-83 | appending the next exercise adds its entry with the running count |
| Ingest.EntryIdInjective | src/ingest/excel_to_json_mapper.py:73 | ids written with different counts differ, whatever their levels |
| Ingest.SplitAtUnderscore | src/ingest/excel_to_json_mapper.py:73 | `a + "_" + b` determines `a` and `b` when `a` has no underscore |
| Ingest.EntryJsonFields | src/ingest/excel_to_json_mapper.py:72-76 | the written object carries `id`, `exercise_name`, `category` and `difficulty_level` under the keys the retriever reads |
| Ingest.EntryJsonDescription | src/ingest/excel_to_json_mapper.py:77-79 | the written object carries `description`, `description_source` and `tags` |
| Ingest.EntryShape | src/ingest/excel_to_json_mapper.py:72-80 | entry `i` has id `sq_{level}_{i}`, keeps the exercise's name, category and level, and is tagged with the lower-cased category and `level {level}` |
| Ingest.DescriptionChoice | src/ingest/excel_to_json_mapper.py:61-70 | the description is the manual one, with source "Manual", exactly when the lookup has a non-NaN text for the name; otherwise it is the generated sentence, with source "Auto" |
| Ingest.IdsDistinct | src/ingest/excel_to_json_mapper.py:73-83 | different entries have different ids |
| Ingest.DroppedRowsAreSkipped | src/ingest/excel_to_json_mapper.py:38 | rows whose EXERCISE cell is NaN contribute nothing |
| Ingest.SkippedLevels | src/ingest/excel_to_json_mapper.py:48-51 | a level whose column is absent, or whose cell is NaN, contributes nothing |
| Ingest.LevelsInRange | src/ingest/excel_to_json_mapper.py:46 | only levels 1 to 10 are read |
| Ingest.CountIsLength | src/ingest/excel_to_json_mapper.py:82-90 | the final count is the number of entries written |
| WorkoutDetail.Find | src/components/WorkoutDetail.jsx:28-30 | `find` with `===` on `assessment_id` or `id`; its properties are stated by FindFirstMatch, FindNoMatch and FindThrows |
| WorkoutDetail.LookupWorkout | src/components/WorkoutDetail.jsx:26-30 | the parsed route parameter looked up in `data \|\| []`; its properties are stated by NullishDataFindsNothing, LinkedWorkoutFound and NaNTargetFindsNothing |
| WorkoutDetail.FindFirstMatch | src/components/WorkoutDetail.jsx:28-30 | `find` returns the first workout whose `assessment_id` or `id` is the target, once nothing before it matched or was nullish |
| WorkoutDetail.FindNoMatch | src/components/WorkoutDetail.jsx:28-30 | `find` returns nothing when no workout matches and none is nullish |
| WorkoutDetail.FindThrows | src/components/WorkoutDetail.jsx:28-30 | `find` throws the TypeError of reading `assessment_id` at the first nullish workout reached before a match |
| WorkoutDetail.NullishDataFindsNothing | src/components/WorkoutDetail.jsx:28 | an undefined or null reply is searched as an empty list: nothing is found and nothing throws |
| WorkoutDetail.LinkedWorkoutFound | src/components/WorkoutDetail.jsx:26-30 | a workout whose `assessment_id` is the number a link printed is found by the parsed route parameter |
| WorkoutDetail.NaNTargetFindsNothing | src/components/WorkoutDetail.jsx:26-30 | a parameter that does not parse gives NaN, which equals nothing, so nothing is found |
| WorkoutDetail.Render | src/components/WorkoutDetail.jsx:54-64 | the loading view exactly while loading; the report exactly when loading is over, no non-empty error message is set and the workout is truthy; otherwise the error message, or "Data unavailable" when it is empty or unset |
| WorkoutDetail.WorkoutDetailScreen.constructor | src/components/WorkoutDetail.jsx:13-15 | the screen starts with no workout, loading, and no error, so it shows the loading view |
| WorkoutDetail.WorkoutDetailScreen.Settle | src/components/WorkoutDetail.jsx:17-43 | a found workout is stored; a missing one sets "Workout not found for this assessment."; a rejected fetch or a throw in `then` sets "Could not load workouts."; loading ends in every case |
| WorkoutDetail.FirstLoadShowsReport | src/components/WorkoutDetail.jsx:32-64 | on first load a found workout object is shown |
| WorkoutDetail.ErrorIsSticky | src/components/WorkoutDetail.jsx:17-64 | an error set by an earlier run of the effect stays on screen after a later lookup succeeds |
| WorkoutDetail.DifficultyClasses | src/components/WorkoutDetail.jsx:45-52 | a key in the table gives its classes; any other key gives the green classes |
| WorkoutDetail.CapitalisedColorsShowGreen | src/components/WorkoutDetail.jsx:45-52 | "Red", "Yellow" and "Green", the colours the back end sends, all show the green classes |
| WorkoutDetail.DifficultyClassesIgnoringCase | src/components/WorkoutDetail.jsx:45-52 | the lookup with the key lower-cased: a table key gives its classes, anything else green |
| WorkoutDetail.BackendRedClassified | src/components/WorkoutDetail.jsx:45-52 | with the key lower-cased, "Red" gets the red classes |
| WorkoutDetail.BackendYellowClassified | src/components/WorkoutDetail.jsx:45-52 | with the key lower-cased, "Yellow" gets the yellow classes |
| WorkoutDetail.BackendGreenClassified | src/components/WorkoutDetail.jsx:45-52 | with the key lower-cased, "Green" gets the green classes |
| WorkoutDetail.IgnoringCaseAgrees | src/components/WorkoutDetail.jsx:45-52 | the lower-cased lookup agrees with the written one on every key already in lower case |
| WorkoutDetail.ExerciseCard | src/components/WorkoutDetail.jsx:152-158 | building a card throws exactly when the exercise is undefined or null |
| WorkoutDetail.RxFallback | src/components/WorkoutDetail.jsx:155-158 | the card's `rx` is `sets_reps` when that is truthy and the exercise's own `rx` otherwise; every other field is the exercise's |
| ProgressHistory.DateKey | src/components/ProgressHistory.jsx:26-27 | the sort key `generated_at \|\| created_at \|\| 0`; stated by UndatedIsEpoch and GeneratedAtFirst |
| ProgressHistory.Timestamp | src/components/ProgressHistory.jsx:26-28 | `new Date(key)` as a timestamp, a number being its own; stated by UndatedIsEpoch and GeneratedAtFirst |
| ProgressHistory.UndatedIsEpoch | src/components/ProgressHistory.jsx:26-27 | an entry with neither date sorts as the epoch |
| ProgressHistory.GeneratedAtFirst | src/components/ProgressHistory.jsx:26-27 | `generated_at` wins over `created_at` whenever it is set |
| ProgressHistory.SwapDown | src/components/ProgressHistory.jsx:25-29 | swapping two neighbours exchanges them and keeps the elements |
| ProgressHistory.InsertNewest | src/components/ProgressHistory.jsx:25-29 | one insertion step extends the newest-first prefix by one, touches nothing after it, and keeps the elements |
| ProgressHistory.SortNewestFirst | src/components/ProgressHistory.jsx:25-29 | the in-place sort leaves the array newest first, with the same elements |
| ProgressHistory.Compared | src/components/ProgressHistory.jsx:25 | the entries `sort` hands to the comparator are never `undefined` and are no more than the list |
| ProgressHistory.Trailing | src/components/ProgressHistory.jsx:25 | the entries `sort` moves to the end are all `undefined` |
| ProgressHistory.PartitionKeepsEntries | src/components/ProgressHistory.jsx:25 | the compared and the trailing entries together are exactly the list's entries |
| ProgressHistory.Listed | src/components/ProgressHistory.jsx:25 | `data \|\| []` when that is an array, and nothing (a failed `.sort`) otherwise; stated by NullishIsEmpty and HistoryScreen.Settle |
| ProgressHistory.SortThrows | src/components/ProgressHistory.jsx:25-29 | the comparator reads a property of a null entry when there are at least two compared entries; HistoryScreen.Settle states what follows |
| ProgressHistory.NullishIsEmpty | src/components/ProgressHistory.jsx:25 | an undefined or null reply lists as empty |
| ProgressHistory.HistoryScreen.constructor | src/components/ProgressHistory.jsx:17-19 | the screen starts with no assessments, loading, and no error |
| ProgressHistory.HistoryScreen.Settle | src/components/ProgressHistory.jsx:21-37 | on success the stored list has the reply's entries, newest first, with `undefined` entries last; a rejected fetch, a non-array reply or a throwing comparator sets "Could not load history." and keeps the list; loading ends in every case |
| ProgressHistory.Formatted | src/components/ProgressHistory.jsx:39-54 | a falsy date shows "N/A"; any other is formatted |
| ProgressHistory.Prefix6 | src/components/ProgressHistory.jsx:119 | `substring(0, 6)` is the first six characters, or the whole text when it is shorter |
| ProgressHistory.ItemRow | src/components/ProgressHistory.jsx:101-130 | a row can be built for every entry except an undefined or null one |
| ProgressHistory.RowShape | src/components/ProgressHistory.jsx:107-119 | a row links to `/coach/student/<id>/workout/<item.id>`, and its heading is "Assessment #" and at most the first six characters of the id |
| ProgressHistory.LinkReachesWorkout | src/components/ProgressHistory.jsx:107-108 | the id a row links to is the one the workout report searches for, so the report finds the workout recorded for that assessment |
| SignupView.Caught | src/components/SignupView.jsx:40-50 | the `catch` block as a function: email in use, logout then the generic message for an error without a code, or the generic message; stated by CaughtAfter, EmailInUseReported, BackendFailureLogsOut, CodedFailureKeepsSession and LogoutOnlyWithoutCode |
| SignupView.Attempt | src/components/SignupView.jsx:33-50 | the `try` block: `register`, `registerCoach`, then navigation, each failure handed to the catch block; stated by SuccessfulSignup and BackendFailureLogsOut |
| SignupView.Submit | src/components/SignupView.jsx:17-54 | the whole submission: validation first, then the attempt; stated by MismatchReportedFirst, ShortPasswordReported, CallsOnlyAfterValidation and FailureIsReported |
| SignupView.Validation | src/components/SignupView.jsx:21-29 | a submission gets past the checks exactly when the passwords match and have at least six characters |
| SignupView.SignupScreen.constructor | src/components/SignupView.jsx:9-14 | every field starts empty, with no spinner and no error |
| SignupView.SignupScreen.Type | src/components/SignupView.jsx:9-12 | an input's change handler sets its own field and nothing else |
| SignupView.SignupScreen.Await | src/components/SignupView.jsx:34-47 | an awaited call is recorded with the spinner's state and settles as given |
| SignupView.SignupScreen.Recover | src/components/SignupView.jsx:40-50 | the `catch` block does what the specification function says: the email-in-use message, a logout and then the generic message for an error without a code, the generic message otherwise |
| SignupView.SignupScreen.TryRegister | src/components/SignupView.jsx:33-50 | the `try` block and its `catch` make the calls, and leave the error and the rejection, that the specification function says |
| SignupView.SignupScreen.HandleSubmit | src/components/SignupView.jsx:17-54 | the error is cleared first; the calls, the final error and the rejection are those of the specification; a submission that gets past the checks ends with the spinner off |
| SignupView.CaughtAfter | src/components/SignupView.jsx:40-50 | the `catch` block only appends calls after the ones already made |
| SignupView.MismatchReportedFirst | src/components/SignupView.jsx:21-24 | mismatched passwords are reported, even when they are also short, and nothing is called |
| SignupView.ShortPasswordReported | src/components/SignupView.jsx:26-29 | matching passwords of fewer than six characters are reported, and nothing is called |
| SignupView.CallsOnlyAfterValidation | src/components/SignupView.jsx:21-34 | no call is made exactly when the checks fail, every call is made with the spinner showing, and the first call is `register(email, password, name)` |
| SignupView.SuccessfulSignup | src/components/SignupView.jsx:34-39 | a valid form whose calls succeed calls `register`, then `registerCoach({name})`, then navigates to "/", with no error |
| SignupView.EmailInUseReported | src/components/SignupView.jsx:42-43 | the code `auth/email-already-in-use` gives "Email is already in use", with no `registerCoach` and no logout |
| SignupView.BackendFailureLogsOut | src/components/SignupView.jsx:36-49 | a code-less failure of `registerCoach` logs out and then sets "Failed to create account. Please try again." |
| SignupView.CodedFailureKeepsSession | src/components/SignupView.jsx:44-49 | any other coded failure sets the generic message without a logout |
| SignupView.LogoutOnlyWithoutCode | src/components/SignupView.jsx:46-48 | `logout()` is called exactly for an error object without a truthy code |
| SignupView.FailureIsReported | src/components/SignupView.jsx:21-50 | a failed submission leaves a message unless its promise rejects |
| EnrollStudent.Changed | src/components/EnrollStudentModal.jsx:15-21 | `handleChange` as a function of the form; stated by ChangeTouchesOneField |
| EnrollStudent.Incomplete | src/components/EnrollStudentModal.jsx:28 | the required-field check; stated in both directions by RejectedIffIncomplete |
| EnrollStudent.Submit | src/components/EnrollStudentModal.jsx:23-46 | `handleSubmit` as a function of the form and the two outcomes; stated by RejectedIffIncomplete, SuccessResets and FailureKeepsForm |
| EnrollStudent.AgeValue | src/components/EnrollStudentModal.jsx:19 | the stored age is "" or a non-zero number |
| EnrollStudent.EnrollModal.constructor | src/components/EnrollStudentModal.jsx:7-13 | the form starts as `{name: "", age: "", gender: "male"}`, with no spinner and no error |
| EnrollStudent.EnrollModal.HandleChange | src/components/EnrollStudentModal.jsx:15-21 | the named field takes the new value, the age coerced by `parseInt(value) \|\| ""`, and nothing else changes |
| EnrollStudent.EnrollModal.Invoke | src/components/EnrollStudentModal.jsx:36-39 | a call is recorded with the spinner's state and ends as given |
| EnrollStudent.EnrollModal.HandleSubmit | src/components/EnrollStudentModal.jsx:23-46 | the calls, the form and the error are those of the specification function; a submission that gets past the check ends with the spinner off |
| EnrollStudent.ChangeTouchesOneField | src/components/EnrollStudentModal.jsx:17-20 | a change sets only the named field, and only the age is coerced |
| EnrollStudent.TypedNumberStored | src/components/EnrollStudentModal.jsx:19 | a typed whole number is stored as that number, except 0, which is stored as "" |
| EnrollStudent.NonNumberStoredBlank | src/components/EnrollStudentModal.jsx:19 | text that is not a number (such as "abc") is stored as "" |
| EnrollStudent.TrimEmptyIffBlank | src/components/EnrollStudentModal.jsx:28 | `trim()` leaves nothing exactly when every character is white space |
| EnrollStudent.BlankFormIncomplete | src/components/EnrollStudentModal.jsx:7-31 | submitting the blank form only asks for the required fields |
| EnrollStudent.RejectedIffIncomplete | src/components/EnrollStudentModal.jsx:28-36 | nothing is called exactly when the name is all white space or the age is falsy; then the form is kept and "Please fill in all required fields." is set; every call is made with the spinner showing |
| EnrollStudent.SuccessResets | src/components/EnrollStudentModal.jsx:36-39 | a complete form is sent as it stands; success resets the form and calls `onSuccess` |
| EnrollStudent.FailureKeepsForm | src/components/EnrollStudentModal.jsx:40-42 | a failed request keeps the form and sets "Failed to enroll student. Please try again.", without calling `onSuccess` |
| EnrollStudent.TypedFormAccepted | src/components/EnrollStudentModal.jsx:15-33 | typing a name with a non-space character and a non-zero age gives a form that passes the check |
| ApiService.KeysMatchRequestModel | main.py:43-50 | the payload's keys are exactly the fields of the back end's request model, in the order it declares them |
| FmsAssessment.EmptyObservation | src/adapter/fmsAdapter.js:44 | an observation absent from the input is adapted as 0 |
| Js.Member | src/components/ProgressHistory.jsx:108 | reading a property throws exactly when the value is undefined or null, and otherwise gives the property or undefined |
| Js.ParseInt | src/components/WorkoutDetail.jsx:26 | `parseInt` always gives a whole number or NaN |
| Js.ParseIntPrintsBack | src/components/WorkoutDetail.jsx:26 | parsing the printed form of a whole number gives the number back, with or without a radix |
| Js.ParseIntReadsLeadingDigits | src/components/WorkoutDetail.jsx:26 | `parseInt(s, 10)` reads the leading digits and ignores what follows them |
| Js.ParseIntRejectsNonNumeric | src/components/EnrollStudentModal.jsx:19 | text that does not start with white space, a sign or a digit parses to NaN |
| Js.ParseIntHexPrefix | src/components/EnrollStudentModal.jsx:19 | without a radix "0x1f" is read as hexadecimal 31; with radix 10 it is 0 |
| Js.Parse | src/components/FMSAssessment.jsx:57 | `JSON.parse` succeeds exactly on text that holds a JSON document |
| Js.Stringify | src/components/FMSAssessment.jsx:72 | `JSON.stringify` gives JSON data whenever it gives a document |
| Js.StringifyObject | src/services/api.js:20 | an object is serialised as its normalised properties |
| Js.NormalizeIsJson | src/components/FMSAssessment.jsx:57-72 | serialising and parsing again always yields JSON data |
| Js.StringifyParseRoundTrip | src/components/FMSAssessment.jsx:57-72 | storing JSON data and reading it back gives the same data |
| Py.IntHasNoItems | src/logic/fms_analyzer.py:174 | `.items()` on an integer raises "'int' object has no attribute 'items'" |
| Py.Less | src/logic/fms_analyzer.py:206-210 | `<` succeeds exactly on two numbers or two strings; otherwise it raises the TypeError naming both operands' types |
| Py.LessIsStrictOrder | src/rag/generator.py:99 | `<` is irreflexive, asymmetric and transitive, values that compare fall into numbers and strings, and two values that compare are ordered one way or are equal |
| Py.Greater | src/logic/fms_analyzer.py:176 | `v > n` succeeds exactly on numbers, and then compares their values |
| Py.Subscript | main.py:110-111 | `d[k]` succeeds exactly when the key is present, giving its value; otherwise a KeyError |
| Py.Str | src/ingest/excel_to_json_mapper.py:37-44 | `str` of a string is the string and of an integer its decimal form |
| Text.StripMeaning | src/ingest/excel_to_json_mapper.py:44-55 | `strip()` is a slice of the text with only white space before and after it, and with no white space at either of its own ends |
| Text.TrimMeaning | src/components/EnrollStudentModal.jsx:28 | `trim()` is a slice of the text with only JavaScript white space before and after it, and with none at either of its own ends |
| Text.Lower | src/ingest/excel_to_json_mapper.py:68-79 | `lower()` keeps the length and lower-cases each character |
| Text.Title | src/rag/generator.py:48-65 | `title()` keeps the length |
| Text.TitleCases | src/rag/generator.py:48-65 | each character of `title()` is upper-cased at the start or after a non-letter, and lower-cased after a letter |

## Left out

- The language-model chain (src/rag/generator.py:102-161) is a function parameter from the prompt to a reply or an exception; the DeepEval background task in main.py:53-65 is not modelled (evaluation I/O only).
- The ML code (src/ml/train_hf_model.py, src/ml/predict.py), the Streamlit script app.py, src/database.py and the test scripts are not part of this model: they are training, UI and database I/O.
- Network clients and authentication (src/api/*.js, the `fetch` in src/services/api.js, Firebase) are not modelled; each call is given as its outcome, success with a value or a thrown value.
- Rendering is left out: the React markup, routing and the presentation-only components. Only the view a screen selects and the rows and classes it computes are modelled.
- Session storage is a map from keys to stored text; the text is either a JSON document or text `JSON.parse` rejects. Serialisation is modelled as normalisation of the value, so the characters of the text are not modelled.
- MD5 in main.py:80 is abstracted as the canonical (sorted) key of the score dict. Collisions of the real hash are not modelled.
- pandas reading in the ingestion script is abstracted as rows of optional cell texts, with NaN as an absent cell. The final JSON file write and the `print` calls are left out (I/O).
- `random.sample` is a draw sequence supplied by the caller, so the model proves properties of every possible sample, not its distribution.
- Floating-point numbers are left out. Severities, scores and levels are integers; `NaN` appears only as the result of `parseInt`.
- Invalid dates (`new Date` giving NaN) are left out; `new Date` is a parameter from a value to an integer timestamp. `toLocaleDateString`/`toLocaleTimeString` are parameters too.
- `Text.Lower` and `Text.Title` change the case of ASCII letters only. Python's Unicode case mapping is not modelled.
- `SignupView.Validation` counts a password's length in characters, not in UTF-16 code units.
- JavaScript property reads see only an object's own keys. Keys inherited from `Object.prototype` (such as `constructor`) are not modelled.
- `ProgressHistory.HistoryScreen.Settle` does not state that the sort is stable, or the order a throwing comparator leaves behind. Such an array is never stored, because the catch only sets the error.
- `SignupView.SignupScreen.HandleSubmit` assumes that `navigate("/")` does not throw. console logging is left out in every screen.
- Py.Less: lists are not compared; Python orders two lists lexicographically, while the model raises the TypeError for them.
- Generator.SortExercises: with keys that do not compare, it reports the first neighbouring pair, later item first, as CPython's run scan meets it. When there are three or more kinds of key, CPython's binary insertion can meet another pair first, and then the message names other types.
- Js.Spread gives no entries for arrays and strings. JavaScript spreads their indexes as keys.
- Js.Prop ignores an array's indexes and its `length`, and a string's, and gives undefined for them.
- ProgressHistory.Prefix6 counts code points. JavaScript's `substring` counts UTF-16 code units, so text outside the Basic Multilingual Plane is cut differently.
- FmsAssessment.AssessmentScreen.UpdateObservation: React runs the updater during rendering, so a throw there (for a stored "null" draft) takes the screen down. The model keeps the screen as it was instead.
- FmsAssessment.AssessmentScreen.UpdateTopLevel: the same holds for its updater.
- Js.Parse: the SyntaxError carries one fixed message, while V8's message quotes the rejected text. The draft loader catches the error and ApiService.GenerateWorkoutPlan passes it on unchanged, so only the rejection's text differs from the engine's.
- Js objects keep insertion order for every key. JavaScript lists integer-like keys ("0", "42") first, in ascending order, so key-order statements such as FmsAssessment.OrderedPayloadShape and FmsAdapter.AdaptedShape hold only for the schema's named, non-numeric ids.
- The movement schema (src/data/fms-v1.json) is not part of this model; it is a parameter, a sequence of movement specs with sections and observations.

## Findings

| source | as written | input that shows it | evidently intended | confidence | as-written member | corrected member |
|---|---|---|---|---|---|---|
| src/components/WorkoutDetail.jsx:45-52 | `getDifficultyColor` looks the colour up case-sensitively in a table keyed "green", "yellow" and "red", falling back to green | a plan with `difficulty_color` "Red", the value src/rag/generator.py:84,173, main.py:95 and src/api/main.py:41,56 send, is shown with the green classes; so is "Yellow" | a referral or a hard plan shows red or yellow, so the key is compared ignoring case | not executed | WorkoutDetail.CapitalisedColorsShowGreen | WorkoutDetail.DifficultyClassesIgnoringCase |
