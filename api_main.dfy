/**
 * The stateless FastAPI endpoint under `src/api`: a pain override first,
 * then the retriever and generator with their exceptions turned into
 * HTTP 500 responses.  There is no cache.
 */
module ApiMain {
  import opened Outcomes
  import opened Dicts
  import opened Py
  import opened Http
  import opened FmsAnalyzer
  import opened Retriever
  import opened Pipeline
  import MainServer

  /** `FMSProfileRequest` of this endpoint: the seven scores and `pain_present`, False by default. */
  datatype ApiRequest = ApiRequest(scores: ProfileRequest, painPresent: bool)

  /** A request that leaves `pain_present` out. */
  function DefaultRequest(scores: ProfileRequest): (r: ApiRequest)
    ensures !r.painPresent && r.scores == scores
  {
    ApiRequest(scores, false)
  }

  /** `profile.dict()`: the seven scores, then `pain_present`. */
  function ApiScores(r: ApiRequest): Dict<PyValue>
  {
    RequestDict(r.scores) + [("pain_present", PyBool(r.painPresent))]
  }

  const PainSummary := "Pain reported during screening. Training is contraindicated."

  /** `generate_workout`. */
  function GenerateWorkout(r: ApiRequest, retrieve: Retrieve, generate: Generate): Response
  {
    var scores := ApiScores(r);
    if r.painPresent then Body(Referral(PainSummary))
    else
      match retrieve(scores)
      case Err(e) => HttpError(500, "Retriever Error: " + e.message)
      case Ok(retrieved) =>
        if retrieved.Stopped? then Body(Referral(retrieved.message))
        else
          match generate(AnalysisDict(retrieved.analysis), retrieved.data)
          case Err(e) => HttpError(500, "Generator Error: " + e.message)
          case Ok(plan) => Body(plan)
  }

  /** Reported pain gives the referral, whatever the retriever and generator would do. */
  lemma PainOverrides(r: ApiRequest, r1: Retrieve, g1: Generate, r2: Retrieve, g2: Generate)
    requires r.painPresent
    ensures GenerateWorkout(r, r1, g1) == Body(Referral(PainSummary))
    ensures GenerateWorkout(r, r1, g1) == GenerateWorkout(r, r2, g2)
  {
  }

  /** Without pain, each outcome of the retriever and generator maps to its response. */
  lemma ResponsesByOutcome(r: ApiRequest, retrieve: Retrieve, generate: Generate)
    requires !r.painPresent
    ensures var got := retrieve(ApiScores(r));
            && (got.Err? ==> GenerateWorkout(r, retrieve, generate) == HttpError(500, "Retriever Error: " + got.error.message))
            && (got.Ok? && got.value.Stopped? ==> GenerateWorkout(r, retrieve, generate) == Body(Referral(got.value.message)))
            && (got.Ok? && got.value.Success? ==>
                  var plan := generate(AnalysisDict(got.value.analysis), got.value.data);
                  && (plan.Err? ==> GenerateWorkout(r, retrieve, generate) == HttpError(500, "Generator Error: " + plan.error.message))
                  && (plan.Ok? ==> GenerateWorkout(r, retrieve, generate) == Body(plan.value)))
  {
  }

  /**
   * With the real retriever a request without pain always fails: the
   * analyzer calls `.items()` on the integer `deep_squat`.
   */
  lemma FlatScoresAlwaysFail(r: ApiRequest, kb: KnowledgeBase, draws: seq<nat>, generate: Generate)
    requires !r.painPresent
    ensures GenerateWorkout(r, RealRetriever(kb, draws), generate)
            == HttpError(500, "Retriever Error: " + "'int' object has no attribute 'items'")
  {
    var scores := ApiScores(r);
    RequestDictShape(r.scores);
    assert scores[0] == ("deep_squat", PyInt(r.scores.deepSquat));
    RejectsBareScore(scores, kb, draws);
  }

  /**
   * On a fresh request without pain this endpoint answers as the cached one
   * does, except where the cached one fails building its evaluation input
   * after the generator succeeded: there this one returns the plan.
   */
  lemma AgreesWithCachedEndpoint(p: ProfileRequest, retrieve: Retrieve, generate: Generate)
    ensures var api := GenerateWorkout(DefaultRequest(p), retrieve, generate);
            var cached := MainServer.Handle(map[], MainServer.Scores(p), retrieve, generate).response;
            api != cached ==> api.Body? && cached.HttpError? && cached.status == 500
  {
    var scores := MainServer.Scores(p);
    MainServer.ScoresShape(p);
    assert ApiScores(DefaultRequest(p)) == scores;
    var empty: map<MainServer.CacheKey, Dict<PyValue>> := map[];
    assert MainServer.KeyOf(scores) !in empty;
    var got := retrieve(scores);
    if got.Ok? && got.value.Success? {
      var plan := generate(AnalysisDict(got.value.analysis), got.value.data);
      if plan.Ok? {
        MainServer.PlanIsCachedThenRepeated(empty, scores, retrieve, generate, retrieve, generate);
        if MainServer.EvaluationInputs(got.value.data, plan.value).Err? {
          MainServer.EvaluationFailureAfterCaching(empty, scores, retrieve, generate);
        }
      } else {
        MainServer.ErrorsAre500(empty, scores, retrieve, generate);
      }
    } else {
      MainServer.ErrorsAre500(empty, scores, retrieve, generate);
    }
  }
}
