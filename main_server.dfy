/**
 * The cached FastAPI endpoint of the root application: `generate_workout`
 * keeps every generated plan in the process-wide `RESPONSE_CACHE`, keyed by
 * a hash of the request scores, so that an identical request gets the same
 * plan back.
 *
 * The MD5 of the sorted-key JSON is abstracted to the canonical form it is
 * computed from (the scores as a map), so two keys collide exactly when the
 * scores agree.  The retriever and generator are parameters; the background
 * DeepEval task is not modelled beyond the subscripts that build its input.
 */
module MainServer {
  import opened Outcomes
  import opened Dicts
  import opened Py
  import opened Http
  import opened FmsAnalyzer
  import opened Retriever
  import opened Pipeline

  /** A cache key: the scores as `json.dumps(..., sort_keys=True)` sees them, independent of order. */
  type CacheKey = map<string, PyValue>

  /** The canonical content of a dict: its keys with their values, whatever their order. */
  function KeyOf(d: Dict<PyValue>): (key: CacheKey)
    ensures forall k :: k in key <==> k in Keys(d)
  {
    map k | k in Keys(d) :: Get(d, k, PyNone)
  }

  /** The key has an entry for each key of the dict, holding its value. */
  lemma KeyOfContents(d: Dict<PyValue>)
    ensures forall k :: k in KeyOf(d) <==> k in Keys(d)
    ensures forall k :: k in Keys(d) ==> Lookup(d, k) == Some(KeyOf(d)[k])
  {
  }

  /** The key depends only on the score contents, not on the order of the keys. */
  lemma KeyIgnoresOrder(d1: Dict<PyValue>, d2: Dict<PyValue>)
    requires forall k :: Lookup(d1, k) == Lookup(d2, k)
    ensures KeyOf(d1) == KeyOf(d2)
  {
    KeyOfContents(d1);
    KeyOfContents(d2);
    forall k ensures k in Keys(d1) <==> k in Keys(d2) {
      assert Lookup(d1, k).None? == Lookup(d2, k).None?;
    }
  }

  /** Dicts that differ under some key get different cache keys. */
  lemma KeySeparatesContents(d1: Dict<PyValue>, d2: Dict<PyValue>, k: string)
    requires Lookup(d1, k) != Lookup(d2, k)
    ensures KeyOf(d1) != KeyOf(d2)
  {
    KeyOfContents(d1);
    KeyOfContents(d2);
    if k in Keys(d1) && k in Keys(d2) {
      assert KeyOf(d1)[k] != KeyOf(d2)[k];
    }
  }

  /** `scores`: the request dict with `pain_present` set to False. */
  function Scores(p: ProfileRequest): Dict<PyValue>
  {
    Put(RequestDict(p), "pain_present", PyBool(false))
  }

  function ScoresKey(p: ProfileRequest): CacheKey
  {
    KeyOf(Scores(p))
  }

  /** The request as a dict with `pain_present` appended as False. */
  lemma ScoresShape(p: ProfileRequest)
    ensures Scores(p) == RequestDict(p) + [("pain_present", PyBool(false))]
  {
    RequestDictShape(p);
    PutAbsentAppends(RequestDict(p), "pain_present", PyBool(false));
  }

  /** The subscripts that build the evaluation input: each exercise's name and description, then the plan's title and summary. */
  function EvaluationInputs(exercises: seq<Exercise>, plan: Dict<PyValue>): (r: Result<bool, PyError>)
    ensures r.Ok? <==> (forall i :: 0 <= i < |exercises| ==> "exercise_name" in Keys(exercises[i]) && "description" in Keys(exercises[i]))
                       && "session_title" in Keys(plan) && "coach_summary" in Keys(plan)
  {
    if exercises != [] then
      match Subscript(exercises[0], "exercise_name")
      case Err(e) => Err(e)
      case Ok(_) =>
        match Subscript(exercises[0], "description")
        case Err(e) => Err(e)
        case Ok(_) =>
          var rest := EvaluationInputs(exercises[1..], plan);
          assert forall i :: 1 <= i < |exercises| ==> exercises[i] == exercises[1..][i - 1];
          rest
    else
      match Subscript(plan, "session_title")
      case Err(e) => Err(e)
      case Ok(_) =>
        match Subscript(plan, "coach_summary")
        case Err(e) => Err(e)
        case Ok(_) => Ok(true)
  }

  datatype Outcome = Outcome(response: Response, cache: map<CacheKey, Dict<PyValue>>)

  /** One request, with the given request scores, against a given cache: the response and the cache afterwards. */
  function Handle(cache: map<CacheKey, Dict<PyValue>>, scores: Dict<PyValue>, retrieve: Retrieve, generate: Generate): Outcome
  {
    var key := KeyOf(scores);
    if key in cache then Outcome(Body(cache[key]), cache)
    else
      match retrieve(scores)
      case Err(e) => Outcome(HttpError(500, "Retriever Error: " + e.message), cache)
      case Ok(retrieved) =>
        if retrieved.Stopped? then Outcome(Body(Referral(retrieved.message)), cache)
        else
          match generate(AnalysisDict(retrieved.analysis), retrieved.data)
          case Err(e) => Outcome(HttpError(500, "Generator Error: " + e.message), cache)
          case Ok(plan) =>
            var cache' := cache[key := plan];
            match EvaluationInputs(retrieved.data, plan)
            case Err(e) => Outcome(HttpError(500, "Generator Error: " + e.message), cache')
            case Ok(_) => Outcome(Body(plan), cache')
  }

  /** The running application: its response cache. */
  class Server {
    var cache: map<CacheKey, Dict<PyValue>>

    constructor()
      ensures cache == map[]
    {
      cache := map[];
    }

    /** `generate_workout`. */
    method GenerateWorkout(p: ProfileRequest, retrieve: Retrieve, generate: Generate) returns (response: Response)
      modifies this
      ensures Outcome(response, cache) == Handle(old(cache), Scores(p), retrieve, generate)
    {
      var scores := RequestDict(p);
      scores := Put(scores, "pain_present", PyBool(false));
      var cacheKey := KeyOf(scores);
      if cacheKey in cache {
        return Body(cache[cacheKey]);
      }
      var retrieval := retrieve(scores);
      if retrieval.Err? {
        return HttpError(500, "Retriever Error: " + retrieval.error.message);
      }
      var retrieved := retrieval.value;
      if retrieved.Stopped? {
        return Body(Referral(retrieved.message));
      }
      var generation := generate(AnalysisDict(retrieved.analysis), retrieved.data);
      if generation.Err? {
        return HttpError(500, "Generator Error: " + generation.error.message);
      }
      var finalPlan := generation.value;
      cache := cache[cacheKey := finalPlan];
      var evaluation := EvaluationInputs(retrieved.data, finalPlan);
      if evaluation.Err? {
        return HttpError(500, "Generator Error: " + evaluation.error.message);
      }
      return Body(finalPlan);
    }
  }

  /** A cache hit returns the stored plan whatever the retriever and generator would do, and changes nothing. */
  lemma CacheHit(cache: map<CacheKey, Dict<PyValue>>, scores: Dict<PyValue>, r1: Retrieve, g1: Generate, r2: Retrieve, g2: Generate)
    requires KeyOf(scores) in cache
    ensures Handle(cache, scores, r1, g1) == Outcome(Body(cache[KeyOf(scores)]), cache)
    ensures Handle(cache, scores, r1, g1) == Handle(cache, scores, r2, g2)
  {
  }

  /** A STOP from the retriever becomes a referral with the retriever's message, and is not cached. */
  lemma StopIsNotCached(cache: map<CacheKey, Dict<PyValue>>, scores: Dict<PyValue>, retrieve: Retrieve, generate: Generate, message: string)
    requires KeyOf(scores) !in cache && retrieve(scores) == Ok(Stopped(message))
    ensures Handle(cache, scores, retrieve, generate) == Outcome(Body(Referral(message)), cache)
  {
  }

  /** Retriever and generator exceptions become HTTP 500 with the exception text; neither caches anything. */
  lemma ErrorsAre500(cache: map<CacheKey, Dict<PyValue>>, scores: Dict<PyValue>, retrieve: Retrieve, generate: Generate)
    requires KeyOf(scores) !in cache
    ensures retrieve(scores).Err? ==>
              Handle(cache, scores, retrieve, generate) == Outcome(HttpError(500, "Retriever Error: " + retrieve(scores).error.message), cache)
    ensures retrieve(scores).Ok? && retrieve(scores).value.Success?
            && generate(AnalysisDict(retrieve(scores).value.analysis), retrieve(scores).value.data).Err? ==>
              Handle(cache, scores, retrieve, generate)
              == Outcome(HttpError(500, "Generator Error: "
                                         + generate(AnalysisDict(retrieve(scores).value.analysis), retrieve(scores).value.data).error.message),
                         cache)
  {
  }

  /**
   * Once the generator has returned a plan it is cached under the request's
   * key, even when building the evaluation input then fails with a 500, and
   * every later identical request returns that plan.
   */
  lemma PlanIsCachedThenRepeated(cache: map<CacheKey, Dict<PyValue>>, scores: Dict<PyValue>, retrieve: Retrieve, generate: Generate,
                                 r2: Retrieve, g2: Generate)
    requires KeyOf(scores) !in cache
    requires retrieve(scores).Ok? && retrieve(scores).value.Success?
    requires generate(AnalysisDict(retrieve(scores).value.analysis), retrieve(scores).value.data).Ok?
    ensures var plan := generate(AnalysisDict(retrieve(scores).value.analysis), retrieve(scores).value.data).value;
            var after := Handle(cache, scores, retrieve, generate).cache;
            && after == cache[KeyOf(scores) := plan]
            && (EvaluationInputs(retrieve(scores).value.data, plan).Ok? <==>
                  Handle(cache, scores, retrieve, generate).response == Body(plan))
            && Handle(after, scores, r2, g2) == Outcome(Body(plan), after)
  {
  }

  /** A failure while building the evaluation input is a 500 "Generator Error", with the plan already cached. */
  lemma EvaluationFailureAfterCaching(cache: map<CacheKey, Dict<PyValue>>, scores: Dict<PyValue>, retrieve: Retrieve, generate: Generate)
    requires KeyOf(scores) !in cache
    requires retrieve(scores).Ok? && retrieve(scores).value.Success?
    requires var plan := generate(AnalysisDict(retrieve(scores).value.analysis), retrieve(scores).value.data);
             plan.Ok? && EvaluationInputs(retrieve(scores).value.data, plan.value).Err?
    ensures var plan := generate(AnalysisDict(retrieve(scores).value.analysis), retrieve(scores).value.data).value;
            Handle(cache, scores, retrieve, generate)
            == Outcome(HttpError(500, "Generator Error: " + EvaluationInputs(retrieve(scores).value.data, plan).error.message),
                       cache[KeyOf(scores) := plan])
  {
  }

  /** With no exercises, a plan without `session_title` fails on that key (whose repr is the name in single quotes). */
  lemma MissingTitle(plan: Dict<PyValue>)
    requires "session_title" !in Keys(plan)
    ensures EvaluationInputs([], plan) == Err(PyError(KeyError, ReprStr("session_title")))
  {
  }

  /** With the real retriever, an uncached profile whose first test is a bare score is a 500 "Retriever Error". */
  lemma BareScoreIs500(cache: map<CacheKey, Dict<PyValue>>, scores: Dict<PyValue>, kb: KnowledgeBase, draws: seq<nat>, generate: Generate)
    requires KeyOf(scores) !in cache
    requires scores != [] && scores[0].0 != ManualFlag && scores[0].1.PyInt?
    ensures Handle(cache, scores, RealRetriever(kb, draws), generate)
            == Outcome(HttpError(500, "Retriever Error: " + "'int' object has no attribute 'items'"), cache)
  {
    var retrieve: Retrieve := RealRetriever(kb, draws);
    RejectsBareScore(scores, kb, draws);
    assert retrieve(scores) == Err(PyError(AttributeError, "'int' object has no attribute 'items'"));
    ErrorsAre500(cache, scores, retrieve, generate);
  }

  /**
   * The analyzer calls `.items()` on every profile value, and the first one
   * here is the integer `deep_squat`: with the real retriever every uncached
   * request is a 500 "Retriever Error", and the cache never gains an entry.
   */
  lemma FlatScoresAlwaysFail(cache: map<CacheKey, Dict<PyValue>>, p: ProfileRequest, kb: KnowledgeBase, draws: seq<nat>, generate: Generate)
    requires ScoresKey(p) !in cache
    ensures Handle(cache, Scores(p), RealRetriever(kb, draws), generate)
            == Outcome(HttpError(500, "Retriever Error: " + "'int' object has no attribute 'items'"), cache)
  {
    ScoresShape(p);
    BareScoreIs500(cache, Scores(p), kb, draws, generate);
  }
}
