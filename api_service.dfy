/**
 * `generateWorkoutPlan` (src/services/api.js): the screen's movement ids
 * are renamed to the back end's score fields, the payload is sent as JSON,
 * and a non-ok response becomes an error.  `fetch` is a parameter: the
 * response it gives for a request body, or the error it throws.
 */
module ApiService {
  import opened Outcomes
  import opened Dicts
  import opened Js
  import Http

  /** The ids of `MOVEMENTS` (src/data/mockData.js), in order. */
  const MovementIds: seq<string> := ["squat", "hurdle", "lunge", "shoulder", "leg_raise", "pushup", "rotary"]

  /** The payload's keys, in the order of the object literal. */
  const ApiKeys: seq<string> := [
    "deep_squat", "hurdle_step", "inline_lunge", "shoulder_mobility",
    "active_straight_leg_raise", "trunk_stability_pushup", "rotary_stability"]

  /** The renaming table: `ApiKeys[i]` is filled from `scores[UiIds[i]]`. */
  const UiIds: seq<string> := ["squat", "hurdle", "lunge", "shoulder", "leg_raise", "pushup", "rotary"]

  /** The object literal `{deep_squat: scores.squat, ...}`; reading a property of null or undefined throws. */
  function ApiPayload(scores: JsValue): (r: Result<Dict<JsValue>, JsValue>)
    ensures r.Err? <==> Nullish(scores)
    ensures r.Err? ==> r.error == ReadError(scores, "squat")
  {
    if Nullish(scores) then Err(ReadError(scores, "squat"))
    else Ok([
      ("deep_squat", Prop(scores, "squat")),
      ("hurdle_step", Prop(scores, "hurdle")),
      ("inline_lunge", Prop(scores, "lunge")),
      ("shoulder_mobility", Prop(scores, "shoulder")),
      ("active_straight_leg_raise", Prop(scores, "leg_raise")),
      ("trunk_stability_pushup", Prop(scores, "pushup")),
      ("rotary_stability", Prop(scores, "rotary"))])
  }

  /** What `fetch` gives: a response with its `ok` flag and body text, or a thrown error. */
  datatype FetchReply = Response(ok: bool, body: StoredText) | Rejected(error: JsValue)

  /**
   * `generateWorkoutPlan(scores)`: the parsed body of an ok response; the
   * `catch` block rethrows whatever was thrown.
   */
  function GenerateWorkoutPlan(scores: JsValue, fetch: StoredText -> FetchReply): (r: Result<JsValue, JsValue>)
    ensures Nullish(scores) ==> r == Err(ReadError(scores, "squat"))
  {
    match ApiPayload(scores)
    case Err(e) => Err(e)
    case Ok(payload) =>
      match fetch(Stringify(Obj(payload)))
      case Rejected(e) => Err(e)
      case Response(ok, body) =>
        if !ok then Err(ErrorValue("Network response was not ok")) else Parse(body)
  }

  /** The renaming is a bijection between the seven movement ids and the seven score fields. */
  lemma TableIsBijection()
    ensures |UiIds| == |ApiKeys| == 7
    ensures Distinct(UiIds) && Distinct(ApiKeys)
    ensures UiIds == MovementIds
  {
  }

  /** The payload's keys are exactly the fields of the back end's request model, in its order. */
  lemma KeysMatchRequestModel(p: Http.ProfileRequest)
    ensures Keys(Http.RequestDict(p)) == ApiKeys
  {
  }

  /**
   * The payload has exactly the seven API keys, each holding the value of
   * its movement id unchanged; no other input key is copied.
   */
  lemma PayloadShape(scores: JsValue, i: nat)
    requires !Nullish(scores) && i < 7
    ensures Keys(ApiPayload(scores).value) == ApiKeys
    ensures Lookup(ApiPayload(scores).value, ApiKeys[i]) == Some(Prop(scores, UiIds[i]))
  {
    var payload := ApiPayload(scores).value;
    assert Keys(payload) == ApiKeys;
    TableIsBijection();
    assert payload[i] == (ApiKeys[i], Prop(scores, UiIds[i]));
    LookupAt(payload, i);
  }

  /**
   * In the request body a score the input lacks is dropped, and one it has
   * is sent as its JSON form.
   */
  lemma BodyDropsMissingScores(scores: JsValue, i: nat)
    requires !Nullish(scores) && i < 7
    ensures Stringify(Obj(ApiPayload(scores).value)).Json?
    ensures Lookup(Stringify(Obj(ApiPayload(scores).value)).doc.fields, ApiKeys[i])
      == if Prop(scores, UiIds[i]).Undefined? then None else Some(Normalize(Prop(scores, UiIds[i])))
  {
    var payload := ApiPayload(scores).value;
    PayloadShape(scores, i);
    TableIsBijection();
    NormalizeFieldsLookup(payload, ApiKeys[i]);
    StringifyObject(payload);
  }

  /** A response that is not ok always throws the same error, whatever its body. */
  lemma NotOkThrows(scores: JsValue, fetch: StoredText -> FetchReply)
    requires !Nullish(scores)
    requires fetch(Stringify(Obj(ApiPayload(scores).value))).Response? && !fetch(Stringify(Obj(ApiPayload(scores).value))).ok
    ensures GenerateWorkoutPlan(scores, fetch) == Err(ErrorValue("Network response was not ok"))
  {
  }

  /** An ok response with JSON text returns the parsed body. */
  lemma OkReturnsBody(scores: JsValue, fetch: StoredText -> FetchReply, doc: JsValue)
    requires !Nullish(scores)
    requires fetch(Stringify(Obj(ApiPayload(scores).value))) == Response(true, Json(doc))
    ensures GenerateWorkoutPlan(scores, fetch) == Ok(doc)
  {
  }
}
