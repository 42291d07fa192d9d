/**
 * What a FastAPI handler gives back: the JSON body of a 200 response, or an
 * `HTTPException` with its status code and detail.
 */
module Http {
  import opened Outcomes
  import opened Dicts
  import opened Py

  datatype Response = Body(plan: Dict<PyValue>) | HttpError(status: int, detail: string)

  /** Both handlers' referral body, in their key order. */
  function Referral(summary: string): Dict<PyValue>
  {
    [("session_title", PyStr("Medical Referral Required")), ("difficulty_color", PyStr("Red")),
     ("coach_summary", PyStr(summary)), ("exercises", PyList([]))]
  }

  /** A referral always has the red colour and no exercises; only the summary varies. */
  lemma ReferralShape(summary: string)
    ensures Lookup(Referral(summary), "difficulty_color") == Some(PyStr("Red"))
    ensures Lookup(Referral(summary), "exercises") == Some(PyList([]))
    ensures Lookup(Referral(summary), "coach_summary") == Some(PyStr(summary))
  {
    var d := Referral(summary);
    assert Keys(d) == [d[0].0, d[1].0, d[2].0, d[3].0];
    LookupAt(d, 1);
    LookupAt(d, 2);
    LookupAt(d, 3);
  }

  /** A request score: Pydantic's `Field(..., ge=0, le=3)`. */
  type FmsScore = n: int | 0 <= n <= 3

  /** The seven required scores both `FMSProfileRequest` models declare, each in 0..3. */
  datatype ProfileRequest = ProfileRequest(
    deepSquat: FmsScore, hurdleStep: FmsScore, inlineLunge: FmsScore, shoulderMobility: FmsScore,
    activeStraightLegRaise: FmsScore, trunkStabilityPushup: FmsScore, rotaryStability: FmsScore)

  /** `profile.dict()` of those fields, in declaration order. */
  function RequestDict(p: ProfileRequest): Dict<PyValue>
  {
    [("deep_squat", PyInt(p.deepSquat)), ("hurdle_step", PyInt(p.hurdleStep)), ("inline_lunge", PyInt(p.inlineLunge)),
     ("shoulder_mobility", PyInt(p.shoulderMobility)), ("active_straight_leg_raise", PyInt(p.activeStraightLegRaise)),
     ("trunk_stability_pushup", PyInt(p.trunkStabilityPushup)), ("rotary_stability", PyInt(p.rotaryStability))]
  }

  /** The request dict never has a `pain_present` entry and starts with the integer `deep_squat`. */
  lemma RequestDictShape(p: ProfileRequest)
    ensures "pain_present" !in Keys(RequestDict(p))
    ensures RequestDict(p)[0] == ("deep_squat", PyInt(p.deepSquat))
  {
  }
}
