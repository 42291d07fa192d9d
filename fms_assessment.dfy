/**
 * The FMS assessment screen (src/components/FMSAssessment.jsx): the draft
 * payload it builds from the schema, loads from and writes through to
 * `sessionStorage`, edits one field at a time, and finally submits in a
 * fixed key order.
 *
 * The React state of the screen is a class: `payload`, `isSubmitting`,
 * `errorMsg`, and the `sessionStorage` map the screen reads and writes.
 * Each state update is modelled together with the persisting effect that
 * follows it.  The network call is a parameter: the value the awaited
 * submission resolved with, or the error it threw.
 */
module FmsAssessment {
  import opened Outcomes
  import opened Dicts
  import opened Text
  import opened Js
  import opened FmsSchema
  import opened FmsAdapter

  // ------------------------------------------------------- the initial draft

  /** The movement object literal: `score`, then `l_score`/`r_score`, then `clearing_pain: false`. */
  function InitialHead(m: MovementSpec): Dict<JsValue>
  {
    var scored := if Asymmetrical(m) then [("score", Int(0)), ("l_score", Int(0)), ("r_score", Int(0))] else [("score", Int(0))];
    if HasClearingTest(m) then scored + [("clearing_pain", Bool(false))] else scored
  }

  /** `state[m.id][s.id]` after the observation loop has set `keys` to 0, in order. */
  function InitialSection(keys: seq<string>): Dict<JsValue>
    decreases |keys|
  {
    if keys == [] then []
    else Put(InitialSection(keys[..|keys| - 1]), keys[|keys| - 1], Int(0))
  }

  /** `state[m.id]` after the section loop has filled `sections`, in order. */
  function InitialMovement(m: MovementSpec, sections: seq<SectionSpec>): Dict<JsValue>
    decreases |sections|
  {
    if sections == [] then InitialHead(m)
    else
      var last := sections[|sections| - 1];
      Put(InitialMovement(m, sections[..|sections| - 1]), last.id, Obj(InitialSection(last.observations)))
  }

  /** `state` after the movement loop of `createInitialState` has filled `schema`, in order. */
  function InitialState(schema: seq<MovementSpec>): Dict<JsValue>
    decreases |schema|
  {
    if schema == [] then [(ManualFlag, Bool(false))]
    else
      var last := schema[|schema| - 1];
      Put(InitialState(schema[..|schema| - 1]), last.id, Obj(InitialMovement(last, last.sections)))
  }

  /** `createInitialState()`. */
  method CreateInitialState(schema: seq<MovementSpec>) returns (state: Dict<JsValue>)
    ensures state == InitialState(schema)
  {
    state := [(ManualFlag, Bool(false))];
    for i := 0 to |schema|
      invariant state == InitialState(schema[..i])
    {
      var m := schema[i];
      var movement := InitialMovementOf(m);
      PrefixStep(schema, i);
      state := Put(state, m.id, Obj(movement));
    }
    PrefixAll(schema);
  }

  /** The body of the movement loop: the literal, then one object per section. */
  method InitialMovementOf(m: MovementSpec) returns (movement: Dict<JsValue>)
    ensures movement == InitialMovement(m, m.sections)
  {
    movement := [("score", Int(0))];
    if Asymmetrical(m) {
      movement := movement + [("l_score", Int(0)), ("r_score", Int(0))];
    }
    if HasClearingTest(m) {
      movement := movement + [("clearing_pain", Bool(false))];
    }
    for j := 0 to |m.sections|
      invariant movement == InitialMovement(m, m.sections[..j])
    {
      var s := m.sections[j];
      var section := InitialSectionOf(s);
      PrefixStep(m.sections, j);
      movement := Put(movement, s.id, Obj(section));
    }
    PrefixAll(m.sections);
  }

  /** The body of the section loop: `{}`, then each observation key set to 0. */
  method InitialSectionOf(s: SectionSpec) returns (section: Dict<JsValue>)
    ensures section == InitialSection(s.observations)
  {
    section := [];
    for k := 0 to |s.observations|
      invariant section == InitialSection(s.observations[..k])
    {
      PrefixStep(s.observations, k);
      section := Put(section, s.observations[k], Int(0));
    }
    PrefixAll(s.observations);
  }

  // The initial draft is exactly what the adapter makes of an empty input.

  lemma EmptyObservation(key: string)
    ensures ObservationValue(Obj([]), key) == Int(0)
  {
    ObservationDefaults(Obj([]), key);
  }

  lemma {:induction false} InitialSectionIsAdaptedEmpty(keys: seq<string>)
    ensures InitialSection(keys) == SectionData(keys, Obj([]))
    decreases |keys|
  {
    if keys != [] {
      InitialSectionIsAdaptedEmpty(keys[..|keys| - 1]);
      EmptyObservation(keys[|keys| - 1]);
    }
  }

  lemma {:induction false} InitialMovementIsAdaptedEmpty(m: MovementSpec, sections: seq<SectionSpec>)
    ensures InitialMovement(m, sections) == MovementData(m, sections, Obj([]))
    decreases |sections|
  {
    if sections == [] {
      assert Prop(Obj([]), "clearing_pain") == Undefined;
    } else {
      var last := sections[|sections| - 1];
      InitialMovementIsAdaptedEmpty(m, sections[..|sections| - 1]);
      InitialSectionIsAdaptedEmpty(last.observations);
    }
  }

  /**
   * `createInitialState()` equals `adaptFMSPayload({assessment_input: {}})`
   * without its error path: the schema-shaped draft with every value
   * zeroed.
   */
  lemma {:induction false} InitialIsAdaptedEmpty(schema: seq<MovementSpec>)
    ensures InitialState(schema) == Adapted(schema, Obj([]))
    decreases |schema|
  {
    if schema != [] {
      var last := schema[|schema| - 1];
      InitialIsAdaptedEmpty(schema[..|schema| - 1]);
      InitialMovementIsAdaptedEmpty(last, last.sections);
      assert MovementInput(Obj([]), last.id) == Obj([]);
    }
  }

  /**
   * The initial draft is `use_manual_scores: false` followed by one entry
   * per movement, in schema order.
   */
  lemma InitialStateShape(schema: seq<MovementSpec>)
    requires WellFormed(schema)
    ensures Keys(InitialState(schema)) == [ManualFlag] + MovementIds(schema)
    ensures Lookup(InitialState(schema), ManualFlag) == Some(Bool(false))
    ensures forall i :: 0 <= i < |schema| ==> Lookup(InitialState(schema), schema[i].id) == Some(Obj(InitialMovement(schema[i], schema[i].sections)))
  {
    InitialIsAdaptedEmpty(schema);
    AdaptedShape(schema, Obj([]));
    forall i | 0 <= i < |schema|
      ensures Lookup(InitialState(schema), schema[i].id) == Some(Obj(InitialMovement(schema[i], schema[i].sections)))
    {
      InitialMovementIsAdaptedEmpty(schema[i], schema[i].sections);
      assert MovementInput(Obj([]), schema[i].id) == Obj([]);
    }
  }

  /**
   * A movement's initial entry: `score` is 0, `l_score` and `r_score` are 0
   * exactly when the movement is asymmetrical, `clearing_pain` is false
   * exactly when it has a clearing test, and each section is an object.
   */
  lemma InitialMovementShape(m: MovementSpec)
    requires WellFormedMovement(m)
    ensures Keys(InitialMovement(m, m.sections)) == HeadKeys(m) + SectionIds(m.sections)
    ensures Lookup(InitialMovement(m, m.sections), "score") == Some(Int(0))
    ensures Lookup(InitialMovement(m, m.sections), "l_score") == if Asymmetrical(m) then Some(Int(0)) else None
    ensures Lookup(InitialMovement(m, m.sections), "r_score") == if Asymmetrical(m) then Some(Int(0)) else None
    ensures Lookup(InitialMovement(m, m.sections), "clearing_pain") == if HasClearingTest(m) then Some(Bool(false)) else None
    ensures forall j :: 0 <= j < |m.sections| ==>
      Lookup(InitialMovement(m, m.sections), m.sections[j].id) == Some(Obj(InitialSection(m.sections[j].observations)))
  {
    InitialMovementIsAdaptedEmpty(m, m.sections);
    MovementKeys(m, Obj([]));
    MovementScores(m, Obj([]));
    assert Prop(Obj([]), "clearing_pain") == Undefined;
    forall j | 0 <= j < |m.sections|
      ensures Lookup(InitialMovement(m, m.sections), m.sections[j].id) == Some(Obj(InitialSection(m.sections[j].observations)))
    {
      MovementSections(m, Obj([]), j);
      InitialSectionIsAdaptedEmpty(m.sections[j].observations);
    }
  }

  /** Every observation of a section starts at 0. */
  lemma InitialSectionShape(keys: seq<string>)
    requires Distinct(keys)
    ensures Keys(InitialSection(keys)) == keys
    ensures forall j :: 0 <= j < |keys| ==> Lookup(InitialSection(keys), keys[j]) == Some(Int(0))
  {
    InitialSectionIsAdaptedEmpty(keys);
    SectionShape(keys, Obj([]));
    forall j | 0 <= j < |keys|
      ensures Lookup(InitialSection(keys), keys[j]) == Some(Int(0))
    {
      EmptyObservation(keys[j]);
    }
  }

  // ----------------------------------------------------------- load/persist

  /** `fms_state_${id}`. */
  function StorageKey(id: string): string
  {
    "fms_state_" + id
  }

  /** `sessionStorage.getItem(key)`: null when absent. */
  function Saved(storage: map<string, StoredText>, key: string): Option<StoredText>
  {
    if key in storage then Some(storage[key]) else None
  }

  /**
   * The `useState` initialiser: saved text that `JSON.parse` accepts is
   * used as is; missing or empty text, and text `JSON.parse` rejects, give
   * `createInitialState()`.  It never throws.
   */
  function LoadDraft(saved: Option<StoredText>, schema: seq<MovementSpec>): JsValue
  {
    match saved
    case None => Obj(InitialState(schema))
    case Some(text) =>
      if text == Garbled("") then Obj(InitialState(schema))
      else
        match Parse(text)
        case Ok(doc) => doc
        case Err(_) => Obj(InitialState(schema))
  }

  method Load(saved: Option<StoredText>, schema: seq<MovementSpec>) returns (draft: JsValue)
    ensures draft == LoadDraft(saved, schema)
  {
    if saved.None? || saved.value == Garbled("") {
      var state := CreateInitialState(schema);
      return Obj(state);
    }
    var parsed := Parse(saved.value);
    if parsed.Err? {
      var state := CreateInitialState(schema);
      return Obj(state);
    }
    return parsed.value;
  }

  /** Text written by the persisting effect reads back as the draft, normalised as JSON does. */
  lemma ReloadNormalises(p: JsValue, schema: seq<MovementSpec>)
    requires !p.Undefined?
    ensures LoadDraft(Some(Stringify(p)), schema) == Normalize(p)
  {
  }

  /** A draft of plain JSON data reads back unchanged. */
  lemma ReloadReturnsDraft(p: JsValue, schema: seq<MovementSpec>)
    requires IsJson(p)
    ensures LoadDraft(Some(Stringify(p)), schema) == p
  {
    StringifyParseRoundTrip(p);
  }

  /** Missing, empty and unparsable saved text all give the initial draft. */
  lemma LoadFallsBack(text: StoredText, schema: seq<MovementSpec>)
    ensures LoadDraft(None, schema) == Obj(InitialState(schema))
    ensures text.Garbled? ==> LoadDraft(Some(text), schema) == Obj(InitialState(schema))
  {
  }

  // ---------------------------------------------------------------- editing

  /**
   * The updater of `updateObservation(m, s, k, v)`:
   * `{...prev, [m]: {...prev[m], [s]: {...prev[m][s], [k]: v}}}`.
   * Reading `prev[m]` throws when `prev` is null, and reading
   * `prev[m][s]` throws when `prev[m]` is undefined or null.
   */
  function UpdatedObservation(prev: JsValue, movementId: string, sectionId: string, key: string, value: JsValue): (r: Result<JsValue, JsValue>)
    ensures r.Err? <==> Nullish(prev) || Nullish(Prop(prev, movementId))
  {
    match Member(prev, movementId)
    case Err(e) => Err(e)
    case Ok(movement) =>
      match Member(movement, sectionId)
      case Err(e) => Err(e)
      case Ok(section) =>
        Ok(Obj(Put(Spread(prev), movementId, Obj(Put(Spread(movement), sectionId, Obj(Put(Spread(section), key, value)))))))
  }

  /** The updater of `updateTopLevel(m, k, v)`: `{...prev, [m]: {...prev[m], [k]: v}}`. */
  function UpdatedTopLevel(prev: JsValue, movementId: string, key: string, value: JsValue): (r: Result<JsValue, JsValue>)
    ensures r.Err? <==> Nullish(prev)
  {
    match Member(prev, movementId)
    case Err(e) => Err(e)
    case Ok(movement) => Ok(Obj(Put(Spread(prev), movementId, Obj(Put(Spread(movement), key, value)))))
  }

  /** `updateObservation` changes `payload[m][s][k]` and nothing else. */
  lemma UpdateObservationFrame(prev: JsValue, movementId: string, sectionId: string, key: string, value: JsValue)
    requires !Nullish(prev) && !Nullish(Prop(prev, movementId))
    ensures UpdatedObservation(prev, movementId, sectionId, key, value).Ok?
    ensures
      var r := UpdatedObservation(prev, movementId, sectionId, key, value).value;
      && Prop(Prop(Prop(r, movementId), sectionId), key) == value
      && (forall m :: m != movementId ==> Prop(r, m) == Prop(prev, m))
      && (forall s :: s != sectionId ==> Prop(Prop(r, movementId), s) == Prop(Prop(prev, movementId), s))
      && (forall k :: k != key ==> Prop(Prop(Prop(r, movementId), sectionId), k) == Prop(Prop(Prop(prev, movementId), sectionId), k))
  {
  }

  /** On an object draft that has the movement, `updateObservation` keeps the key order at every level. */
  lemma UpdateObservationKeepsKeys(fields: Dict<JsValue>, movementId: string, sectionId: string, key: string, value: JsValue)
    requires movementId in Keys(fields)
    requires !Nullish(Prop(Obj(fields), movementId))
    ensures Keys(UpdatedObservation(Obj(fields), movementId, sectionId, key, value).value.fields) == Keys(fields)
  {
  }

  /** `updateTopLevel` changes `payload[m][k]` and nothing else. */
  lemma UpdateTopLevelFrame(prev: JsValue, movementId: string, key: string, value: JsValue)
    requires !Nullish(prev)
    ensures UpdatedTopLevel(prev, movementId, key, value).Ok?
    ensures
      var r := UpdatedTopLevel(prev, movementId, key, value).value;
      && Prop(Prop(r, movementId), key) == value
      && (forall m :: m != movementId ==> Prop(r, m) == Prop(prev, m))
      && (forall k :: k != key ==> Prop(Prop(r, movementId), k) == Prop(Prop(prev, movementId), k))
  {
  }

  // ------------------------------------------------------------- submitting

  const UnavailableMessage := "Workout generation unavailable directly. Try again later."
  const GenericMessage := "An error occurred during submission. Please try again."

  /** The TypeError V8 throws for `const { use_manual_scores, ...movements } = payload` on undefined or null. */
  function DestructureError(v: JsValue): JsValue
  {
    ErrorValue("Cannot destructure property 'use_manual_scores' of 'payload' as it is " + (if v.Null? then "null" else "undefined") + ".")
  }

  /**
   * The submitted object `{student_id: id, ...movements, use_manual_scores}`,
   * where `movements` is the draft without `use_manual_scores`.
   */
  function OrderedPayload(id: string, payload: JsValue): (r: Result<Dict<JsValue>, JsValue>)
    ensures r.Err? <==> Nullish(payload)
  {
    if Nullish(payload) then Err(DestructureError(payload))
    else Ok(Put(PutAll([("student_id", Str(id))], Remove(Spread(payload), ManualFlag)), ManualFlag, Prop(payload, ManualFlag)))
  }

  /**
   * For a draft object (which has no `student_id` key), the submitted
   * object is `student_id` first, then every other entry of the draft
   * unchanged and in order, then `use_manual_scores` last.
   */
  lemma OrderedPayloadShape(id: string, fields: Dict<JsValue>)
    requires Distinct(Keys(fields)) && "student_id" !in Keys(fields)
    ensures OrderedPayload(id, Obj(fields))
      == Ok([("student_id", Str(id))] + Remove(fields, ManualFlag) + [(ManualFlag, Prop(Obj(fields), ManualFlag))])
  {
    var head := [("student_id", Str(id))];
    var movements := Remove(fields, ManualFlag);
    RemoveKeys(fields, ManualFlag);
    KeysConcat(head, movements);
    DistinctConcat(["student_id"], Keys(movements));
    PutAllFresh(head, movements);
    assert ManualFlag !in Keys(head + movements);
    PutAbsentAppends(head + movements, ManualFlag, Prop(Obj(fields), ManualFlag));
  }

  /** How a submission ends for the screen. */
  datatype SubmitOutcome =
    | Navigated(path: string, state: JsValue)   // `navigate(path, {state})`
    | Failed(message: string)                   // `setErrorMsg(message)`
    | Uncaught(error: JsValue)                  // the `catch` block itself threw

  /** `err.message?.includes("500")`, which throws when `message` has no `includes` method. */
  function MentionsServerError(message: JsValue): Result<bool, JsValue>
  {
    match message
    case Undefined => Ok(false)
    case Null => Ok(false)
    case Str(s) => Ok(Contains(s, "500"))
    case Arr(items) => Ok(Str("500") in items)
    case _ => Err(ErrorValue("err.message?.includes is not a function"))
  }

  /** The `catch` block: the unavailable message for a 500, the generic message otherwise. */
  function CatchOutcome(err: JsValue): SubmitOutcome
  {
    if Nullish(err) then Uncaught(ReadError(err, "message"))
    else
      match MentionsServerError(Prop(err, "message"))
      case Err(e) => Uncaught(e)
      case Ok(mentions) =>
        Failed(if mentions || StrictEqualsNumber(Prop(err, "status"), Int(500)) then UnavailableMessage else GenericMessage)
  }

  /**
   * The rest of `handleSubmit` once the submitted object is built (or its
   * construction threw) and the request has resolved (or thrown).
   */
  function SubmitResult(id: string, request: Result<Dict<JsValue>, JsValue>, reply: Result<JsValue, JsValue>): SubmitOutcome
  {
    match request
    case Err(e) => CatchOutcome(e)
    case Ok(ordered) =>
      match reply
      case Err(e) => CatchOutcome(e)
      case Ok(result) =>
        if Nullish(result) then CatchOutcome(ReadError(result, "calculated_scores"))
        else Navigated("/coach/student/" + id + "/scores", Obj([
          ("calculated_scores", Or(Prop(result, "calculated_scores"), Prop(result, "scores"))),
          ("raw_inputs", Obj(ordered)),
          ("session_metadata", Prop(result, "metadata"))]))
  }

  /** Whether the draft is removed from storage: as soon as the request resolves. */
  predicate RemovesDraft(request: Result<Dict<JsValue>, JsValue>, reply: Result<JsValue, JsValue>)
  {
    request.Ok? && reply.Ok?
  }

  /** An `Error` thrown by the API client is classified by its message alone. */
  lemma ClientErrorClassified(message: string)
    ensures CatchOutcome(ErrorValue(message)) == Failed(if Contains(message, "500") then UnavailableMessage else GenericMessage)
  {
    assert Prop(ErrorValue(message), "message") == Str(message);
    assert Prop(ErrorValue(message), "status") == Undefined;
  }

  /** An error object with status 500 gets the unavailable message whatever its message says. */
  lemma Status500Unavailable(err: JsValue)
    requires err.Obj? && Prop(err, "status") == Int(500)
    requires Prop(err, "message").Str? || Nullish(Prop(err, "message"))
    ensures CatchOutcome(err) == Failed(UnavailableMessage)
  {
  }

  /** A rejection with undefined or null escapes the handler (reading `err.message` throws). */
  lemma NullishErrorEscapes(err: JsValue)
    requires Nullish(err)
    ensures CatchOutcome(err).Uncaught?
  {
  }

  /**
   * A request that resolves with null or undefined removes the draft and
   * then fails with the generic message: the property read on the result
   * throws a TypeError without "500" in its message.
   */
  lemma NullResultAfterRemoval(id: string, ordered: Dict<JsValue>, result: JsValue)
    requires Nullish(result)
    ensures RemovesDraft(Ok(ordered), Ok(result))
    ensures SubmitResult(id, Ok(ordered), Ok(result)) == Failed(GenericMessage)
  {
    var msg := ReadErrorMessage(result, "calculated_scores");
    assert forall i :: 0 <= i < |msg| ==> msg[i] != '5';
    NoDigitNoMatch(msg, "500");
    ClientErrorClassified(msg);
  }

  /** A text without the first character of `sub` does not contain `sub`. */
  lemma {:induction false} NoDigitNoMatch(s: string, sub: string)
    requires sub != [] && forall i :: 0 <= i < |s| ==> s[i] != sub[0]
    ensures !Contains(s, sub)
    decreases |s|
  {
    if s != [] {
      NoDigitNoMatch(s[1..], sub);
    }
  }

  // ---------------------------------------------------------------- the screen

  /** The screen's React state together with the `sessionStorage` it writes through to. */
  class AssessmentScreen {
    const schema: seq<MovementSpec>
    const studentId: string
    var payload: JsValue
    var isSubmitting: bool
    var errorMsg: Option<string>
    var storage: map<string, StoredText>

    /** The persisting effect has written the current draft. */
    predicate Persisted()
      reads this
    {
      StorageKey(studentId) in storage && storage[StorageKey(studentId)] == Stringify(payload)
    }

    /** The submit button is enabled. */
    predicate CanSubmit()
      reads this
    {
      !isSubmitting
    }

    /** Mounting the screen: load the draft, then the effect persists it. */
    constructor(schema: seq<MovementSpec>, studentId: string, storage: map<string, StoredText>)
      ensures this.schema == schema && this.studentId == studentId
      ensures payload == LoadDraft(Saved(storage, StorageKey(studentId)), schema)
      ensures this.storage == storage[StorageKey(studentId) := Stringify(payload)]
      ensures !isSubmitting && errorMsg == None
      ensures Persisted()
    {
      var draft := Load(Saved(storage, StorageKey(studentId)), schema);
      this.schema := schema;
      this.studentId := studentId;
      payload := draft;
      isSubmitting := false;
      errorMsg := None;
      this.storage := storage[StorageKey(studentId) := Stringify(draft)];
    }

    /**
     * `updateObservation`, then the effect.  When the updater throws the
     * state is unchanged and the error is returned.
     */
    method UpdateObservation(movementId: string, sectionId: string, key: string, value: JsValue) returns (thrown: Option<JsValue>)
      modifies this
      ensures UpdatedObservation(old(payload), movementId, sectionId, key, value).Ok? ==>
        && payload == UpdatedObservation(old(payload), movementId, sectionId, key, value).value
        && storage == old(storage)[StorageKey(studentId) := Stringify(payload)]
        && thrown == None
      ensures UpdatedObservation(old(payload), movementId, sectionId, key, value).Err? ==>
        && payload == old(payload) && storage == old(storage)
        && thrown == Some(UpdatedObservation(old(payload), movementId, sectionId, key, value).error)
      ensures isSubmitting == old(isSubmitting) && errorMsg == old(errorMsg)
      ensures old(Persisted()) || thrown.None? ==> Persisted()
    {
      var next := UpdatedObservation(payload, movementId, sectionId, key, value);
      if next.Err? {
        return Some(next.error);
      }
      payload := next.value;
      storage := storage[StorageKey(studentId) := Stringify(payload)];
      return None;
    }

    /** `updateTopLevel`, then the effect. */
    method UpdateTopLevel(movementId: string, key: string, value: JsValue) returns (thrown: Option<JsValue>)
      modifies this
      ensures UpdatedTopLevel(old(payload), movementId, key, value).Ok? ==>
        && payload == UpdatedTopLevel(old(payload), movementId, key, value).value
        && storage == old(storage)[StorageKey(studentId) := Stringify(payload)]
        && thrown == None
      ensures UpdatedTopLevel(old(payload), movementId, key, value).Err? ==>
        && payload == old(payload) && storage == old(storage)
        && thrown == Some(UpdatedTopLevel(old(payload), movementId, key, value).error)
      ensures isSubmitting == old(isSubmitting) && errorMsg == old(errorMsg)
      ensures old(Persisted()) || thrown.None? ==> Persisted()
    {
      var next := UpdatedTopLevel(payload, movementId, key, value);
      if next.Err? {
        return Some(next.error);
      }
      payload := next.value;
      storage := storage[StorageKey(studentId) := Stringify(payload)];
      return None;
    }

    /**
     * `handleSubmit` up to the awaited call: the busy flag is raised, the
     * error cleared, and the submitted object built (or its construction
     * throws).
     */
    method BeginSubmit() returns (request: Result<Dict<JsValue>, JsValue>)
      requires CanSubmit()
      modifies this
      ensures isSubmitting && errorMsg == None
      ensures payload == old(payload) && storage == old(storage)
      ensures request == OrderedPayload(studentId, payload)
    {
      isSubmitting := true;
      errorMsg := None;
      if Nullish(payload) {
        return Err(DestructureError(payload));
      }
      var movements := Remove(Spread(payload), ManualFlag);
      var ordered := PutAll([("student_id", Str(studentId))], movements);
      ordered := Put(ordered, ManualFlag, Prop(payload, ManualFlag));
      return Ok(ordered);
    }

    /**
     * The rest of `handleSubmit`: on resolution the draft is removed before
     * the result is read; the `catch` block sets the message; `finally`
     * lowers the busy flag.
     */
    method FinishSubmit(request: Result<Dict<JsValue>, JsValue>, reply: Result<JsValue, JsValue>) returns (outcome: SubmitOutcome)
      requires isSubmitting
      modifies this
      ensures outcome == SubmitResult(studentId, request, reply)
      ensures !isSubmitting && payload == old(payload)
      ensures storage == if RemovesDraft(request, reply) then old(storage) - {StorageKey(studentId)} else old(storage)
      ensures errorMsg == if outcome.Failed? then Some(outcome.message) else old(errorMsg)
    {
      if request.Ok? && reply.Ok? {
        storage := storage - {StorageKey(studentId)};
      }
      outcome := SubmitResult(studentId, request, reply);
      if outcome.Failed? {
        errorMsg := Some(outcome.message);
      }
      isSubmitting := false;
    }
  }

  /** A successful submission has removed the draft. */
  lemma SuccessRemovesDraft(id: string, request: Result<Dict<JsValue>, JsValue>, reply: Result<JsValue, JsValue>)
    requires SubmitResult(id, request, reply).Navigated?
    ensures RemovesDraft(request, reply)
  {
  }
}
