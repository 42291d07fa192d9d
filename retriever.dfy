/**
 * `get_exercises_by_profile`: runs the analyzer, passes a STOP straight
 * through, and otherwise draws up to three exercises of the target level
 * (or, when there are none, of the levels next to it) from the knowledge
 * base.
 *
 * The knowledge-base file is a parameter (absent, or the list `json.load`
 * returned); `random.sample` is driven by a parameter sequence of draws, so
 * every statement below holds for whatever the random generator picks.
 */
module Retriever {
  import opened Outcomes
  import opened Dicts
  import opened Py
  import opened FmsAnalyzer

  const DbPath := "data/processed/exercise_knowledge_base.json"

  /** An exercise entry of the knowledge base (a JSON object). */
  type Exercise = Dict<PyValue>

  datatype KnowledgeBase = Missing | Loaded(entries: seq<Exercise>)

  /** `load_knowledge_base`: FileNotFoundError when the file does not exist. */
  function LoadKnowledgeBase(kb: KnowledgeBase): (r: Result<seq<Exercise>, PyError>)
    ensures r.Err? <==> kb.Missing?
    ensures r.Err? ==> r.error == PyError(FileNotFoundError, "Database not found at " + DbPath)
    ensures r.Ok? ==> r.value == kb.entries
  {
    match kb
    case Missing => Err(PyError(FileNotFoundError, "Database not found at " + DbPath))
    case Loaded(entries) => Ok(entries)
  }

  function Level(ex: Exercise): PyValue
  {
    Get(ex, "difficulty_level", PyNone)
  }

  /** `[ex for ex in kb if ex.get('difficulty_level') == target]`. */
  function ExactLevel(kb: seq<Exercise>, target: int): (r: seq<Exercise>)
    ensures |r| <= |kb|
    ensures forall ex :: ex in r <==> ex in kb && EqualsInt(Level(ex), target)
    ensures multiset(r) <= multiset(kb)
    ensures forall ex :: multiset(r)[ex] == if EqualsInt(Level(ex), target) then multiset(kb)[ex] else 0
  {
    if kb == [] then []
    else
      var rest := ExactLevel(kb[1..], target);
      assert kb == [kb[0]] + kb[1..];
      if EqualsInt(Level(kb[0]), target) then [kb[0]] + rest else rest
  }

  /** `abs(level - target) <= 1`; the subtraction raises unless the level is a number. */
  function NearLevel(ex: Exercise, target: int): (r: Result<bool, PyError>)
    ensures r.Ok? <==> IsNumber(Level(ex))
    ensures r.Ok? ==> r.value == (-1 <= NumberValue(Level(ex)) - target <= 1)
  {
    var v := Level(ex);
    if IsNumber(v) then
      var d := NumberValue(v) - target;
      Ok((if d < 0 then -d else d) <= 1)
    else Err(PyError(TypeError, "unsupported operand type(s) for -: '" + TypeName(v) + "' and 'int'"))
  }

  /** `[ex for ex in kb if abs(ex.get('difficulty_level') - target) <= 1]`. */
  function NearbyLevels(kb: seq<Exercise>, target: int): (r: Result<seq<Exercise>, PyError>)
    ensures r.Ok? <==> forall i :: 0 <= i < |kb| ==> IsNumber(Level(kb[i]))
    ensures r.Ok? ==> forall ex :: ex in r.value <==> ex in kb && NearLevel(ex, target) == Ok(true)
    ensures r.Ok? ==> multiset(r.value) <= multiset(kb)
    ensures r.Ok? ==> forall ex :: multiset(r.value)[ex] == if NearLevel(ex, target) == Ok(true) then multiset(kb)[ex] else 0
  {
    if kb == [] then Ok([])
    else
      assert kb == [kb[0]] + kb[1..];
      assert forall i :: 1 <= i < |kb| ==> kb[i] == kb[1..][i - 1];
      match NearLevel(kb[0], target)
      case Err(e) => Err(e)
      case Ok(near) =>
        match NearbyLevels(kb[1..], target)
        case Err(e) => Err(e)
        case Ok(rest) => Ok(if near then [kb[0]] + rest else rest)
  }

  /** The level filter, with the ±1 fallback used only when the exact level has no entries. */
  function Candidates(kb: seq<Exercise>, target: int): (r: Result<seq<Exercise>, PyError>)
    ensures r.Err? ==> ExactLevel(kb, target) == []
    ensures r.Ok? ==> multiset(r.value) <= multiset(kb)
    ensures r.Ok? ==> forall ex :: ex in r.value ==> ex in kb && NearLevel(ex, target) == Ok(true)
    ensures ExactLevel(kb, target) != [] ==> r == Ok(ExactLevel(kb, target))
    ensures ExactLevel(kb, target) == [] ==> r == NearbyLevels(kb, target)
    ensures ExactLevel(kb, target) == [] ==> (r.Ok? <==> forall i :: 0 <= i < |kb| ==> IsNumber(Level(kb[i])))
    ensures ExactLevel(kb, target) == [] && r.Ok? ==>
              forall ex :: ex in r.value <==> ex in kb && NearLevel(ex, target) == Ok(true)
  {
    var exact := ExactLevel(kb, target);
    if exact != [] then Ok(exact) else NearbyLevels(kb, target)
  }

  /**
   * `random.sample(pool, k)`: each draw picks one of the items not picked
   * yet (the draw modulo the items left) and takes it out of the pool.
   */
  function Sample<T>(pool: seq<T>, k: nat, draws: seq<nat>): (r: seq<T>)
    requires k <= |pool|
    ensures |r| == k
    ensures multiset(r) <= multiset(pool)
    decreases k
  {
    if k == 0 then []
    else
      var d := if draws == [] then 0 else draws[0];
      var i := d % |pool|;
      var rest := pool[..i] + pool[i + 1..];
      assert pool == pool[..i] + [pool[i]] + pool[i + 1..];
      [pool[i]] + Sample(rest, k - 1, if draws == [] then [] else draws[1..])
  }

  function Min(a: int, b: int): int { if a <= b then a else b }

  datatype RetrievalResult =
    | Stopped(message: string)
    | Success(analysis: Analysis, data: seq<Exercise>)

  /** The status field of the returned dict. */
  function StatusField(r: RetrievalResult): string
  {
    if r.Stopped? then "STOP" else "SUCCESS"
  }

  /** The `data` field of the returned dict; empty for a STOP. */
  function DataField(r: RetrievalResult): seq<Exercise>
  {
    if r.Stopped? then [] else r.data
  }

  /** `get_exercises_by_profile`. */
  function GetExercisesByProfile(profile: Dict<PyValue>, kb: KnowledgeBase, draws: seq<nat>): (r: Result<RetrievalResult, PyError>)
    ensures r.Ok? && r.value.Success? ==>
              && Analyze(profile, false) == Ok(r.value.analysis)
              && r.value.analysis.status != Stop
              && kb.Loaded?
              && |r.value.data| <= 3
              && multiset(r.value.data) <= multiset(kb.entries)
  {
    match Analyze(profile, false)
    case Err(e) => Err(e)
    case Ok(analysis) =>
      if analysis.status == Stop then Ok(Stopped(analysis.reason))
      else
        match LoadKnowledgeBase(kb)
        case Err(e) => Err(e)
        case Ok(entries) =>
          match Candidates(entries, analysis.targetLevel)
          case Err(e) => Err(e)
          case Ok(candidates) =>
            Ok(Success(analysis, Sample(candidates, Min(|candidates|, 3), draws)))
  }

  /** A STOP analysis is passed through with its reason and no data, without reading the knowledge base. */
  lemma StopPassesThrough(profile: Dict<PyValue>, kb: KnowledgeBase, draws: seq<nat>)
    requires Analyze(profile, false).Ok? && Analyze(profile, false).value.status == Stop
    ensures GetExercisesByProfile(profile, kb, draws) == Ok(Stopped(Analyze(profile, false).value.reason))
    ensures GetExercisesByProfile(profile, kb, draws) == GetExercisesByProfile(profile, Missing, [])
    ensures DataField(GetExercisesByProfile(profile, kb, draws).value) == []
  {
  }

  /** A knowledge base that is not there matters only once the analysis has passed. */
  lemma MissingKnowledgeBase(profile: Dict<PyValue>, draws: seq<nat>)
    requires Analyze(profile, false).Ok? && Analyze(profile, false).value.status != Stop
    ensures GetExercisesByProfile(profile, Missing, draws) == Err(PyError(FileNotFoundError, "Database not found at " + DbPath))
  {
  }

  /**
   * On success the analysis is passed through unchanged and the selection
   * is three entries, or all the candidates when there are fewer, taken
   * without repeats from the candidates: the exact-level entries when some
   * exist, otherwise the entries one level away or closer.
   */
  lemma {:induction false} SuccessSelection(profile: Dict<PyValue>, entries: seq<Exercise>, draws: seq<nat>)
    requires GetExercisesByProfile(profile, Loaded(entries), draws).Ok?
    requires GetExercisesByProfile(profile, Loaded(entries), draws).value.Success?
    ensures var r := GetExercisesByProfile(profile, Loaded(entries), draws).value;
            var target := r.analysis.targetLevel;
            && Analyze(profile, false) == Ok(r.analysis)
            && r.analysis.status != Stop
            && (ExactLevel(entries, target) != [] ==>
                  |r.data| == Min(|ExactLevel(entries, target)|, 3)
                  && forall ex :: ex in r.data ==> ex in entries && EqualsInt(Level(ex), target))
            && (ExactLevel(entries, target) == [] ==>
                  && Candidates(entries, target) == NearbyLevels(entries, target)
                  && (forall ex :: ex in Candidates(entries, target).value <==>
                        ex in entries && NearLevel(ex, target) == Ok(true))
                  && |r.data| == Min(|NearbyLevels(entries, target).value|, 3)
                  && forall ex :: ex in r.data ==>
                    ex in entries && IsNumber(Level(ex)) && -1 <= NumberValue(Level(ex)) - target <= 1)
            && Candidates(entries, target).Ok?
            && |r.data| == Min(|Candidates(entries, target).value|, 3)
            && multiset(r.data) <= multiset(Candidates(entries, target).value)
            && multiset(r.data) <= multiset(entries)
  {
    var analysis := Analyze(profile, false).value;
    var candidates := Candidates(entries, analysis.targetLevel).value;
    SampleMembers(candidates, Min(|candidates|, 3), draws);
  }

  /** Every sampled item comes from the pool. */
  lemma SampleMembers<T>(pool: seq<T>, k: nat, draws: seq<nat>)
    requires k <= |pool|
    ensures forall x :: x in Sample(pool, k, draws) ==> x in pool
  {
    var r := Sample(pool, k, draws);
    forall x | x in r ensures x in pool {
      assert x in multiset(r);
    }
  }

  /** A profile whose first test is a bare score fails in the analyzer with the `.items()` AttributeError. */
  lemma RejectsBareScore(profile: Dict<PyValue>, kb: KnowledgeBase, draws: seq<nat>)
    requires profile != [] && profile[0].0 != ManualFlag && profile[0].1.PyInt?
    ensures GetExercisesByProfile(profile, kb, draws) == Err(PyError(AttributeError, "'int' object has no attribute 'items'"))
  {
    EffectiveScoresFromStep(profile, [], false);
    assert Analyze(profile, false) == Err(NoAttribute(profile[0].1, "items"));
    IntHasNoItems(profile[0].1);
  }
}
