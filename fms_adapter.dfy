/**
 * The front-end adapter `adaptFMSPayload` (src/adapter/fmsAdapter.js): it
 * walks the schema and turns a flat input `assessment_input` (observation
 * values keyed by observation key, per movement) into the nested payload the
 * back end expects, forcing every score to 0 and `use_manual_scores` to
 * false so that the back end computes the scores itself.
 */
module FmsAdapter {
  import opened Outcomes
  import opened Dicts
  import opened Js
  import opened FmsSchema

  /** `parseInt(inputScores[obs.key] || 0, 10)`. */
  function ObservationValue(inputScores: JsValue, key: string): JsValue
  {
    ParseInt(Or(Prop(inputScores, key), Int(0)), Decimal)
  }

  /** `sectionData` after the observation loop has assigned `keys`, in order. */
  function SectionData(keys: seq<string>, inputScores: JsValue): Dict<JsValue>
    decreases |keys|
  {
    if keys == [] then []
    else Put(SectionData(keys[..|keys| - 1], inputScores), keys[|keys| - 1], ObservationValue(inputScores, keys[|keys| - 1]))
  }

  /** `movementData` before the sections: `score`, then `l_score`/`r_score`, then `clearing_pain`. */
  function MovementHead(m: MovementSpec, inputScores: JsValue): Dict<JsValue>
  {
    var scored := if Asymmetrical(m) then [("score", Int(0)), ("l_score", Int(0)), ("r_score", Int(0))] else [("score", Int(0))];
    if HasClearingTest(m) then scored + [("clearing_pain", Bool(Truthy(Prop(inputScores, "clearing_pain"))))] else scored
  }

  /** Assigning the asymmetrical score fields to `{score: 0}` appends them. */
  lemma ScoredPuts()
    ensures Put(Put([("score", Int(0))], "l_score", Int(0)), "r_score", Int(0)) == [("score", Int(0)), ("l_score", Int(0)), ("r_score", Int(0))]
  {
    PutAbsentAppends([("score", Int(0))], "l_score", Int(0));
    PutAbsentAppends([("score", Int(0)), ("l_score", Int(0))], "r_score", Int(0));
  }

  /** `clearing_pain` is not among the fields assigned before it. */
  lemma ScoredKeys(m: MovementSpec)
    ensures "clearing_pain" !in Keys(if Asymmetrical(m) then [("score", Int(0)), ("l_score", Int(0)), ("r_score", Int(0))] else [("score", Int(0))])
  {
    assert Keys([("score", Int(0)), ("l_score", Int(0)), ("r_score", Int(0))]) == ["score", "l_score", "r_score"];
  }

  /** `movementData` after the section loop has assigned `sections`, in order. */
  function MovementData(m: MovementSpec, sections: seq<SectionSpec>, inputScores: JsValue): Dict<JsValue>
    decreases |sections|
  {
    if sections == [] then MovementHead(m, inputScores)
    else
      var last := sections[|sections| - 1];
      Put(MovementData(m, sections[..|sections| - 1], inputScores), last.id, Obj(SectionData(last.observations, inputScores)))
  }

  /** `scores[movement.id] || {}`. */
  function MovementInput(scores: JsValue, id: string): JsValue
  {
    Or(Prop(scores, id), Obj([]))
  }

  /** The entry the movement loop assigns for `m`. */
  function AdaptedMovement(m: MovementSpec, scores: JsValue): JsValue
  {
    Obj(MovementData(m, m.sections, MovementInput(scores, m.id)))
  }

  /** `adapted` after the movement loop has assigned `schema`, in order. */
  function Adapted(schema: seq<MovementSpec>, scores: JsValue): Dict<JsValue>
    decreases |schema|
  {
    if schema == [] then [(ManualFlag, Bool(false))]
    else
      var last := schema[|schema| - 1];
      Put(Adapted(schema[..|schema| - 1], scores), last.id, AdaptedMovement(last, scores))
  }

  /**
   * `adaptFMSPayload(specPayload)`: reading `assessment_input` throws only
   * when the payload itself is undefined or null; a missing or falsy input
   * is replaced by `{}`.
   */
  function Adapt(schema: seq<MovementSpec>, specPayload: JsValue): (r: Result<Dict<JsValue>, JsValue>)
    ensures r.Err? <==> Nullish(specPayload)
    ensures r.Err? ==> r.error == ReadError(specPayload, "assessment_input")
  {
    match Member(specPayload, "assessment_input")
    case Err(e) => Err(e)
    case Ok(input) => Ok(Adapted(schema, Or(input, Obj([]))))
  }

  method AdaptFmsPayload(schema: seq<MovementSpec>, specPayload: JsValue) returns (r: Result<Dict<JsValue>, JsValue>)
    ensures r == Adapt(schema, specPayload)
  {
    var member := Member(specPayload, "assessment_input");
    if member.Err? {
      return Err(member.error);
    }
    var scores := Or(member.value, Obj([]));
    var adapted: Dict<JsValue> := [(ManualFlag, Bool(false))];
    for i := 0 to |schema|
      invariant adapted == Adapted(schema[..i], scores)
    {
      var movement := schema[i];
      var movementData := AdaptMovement(movement, scores);
      PrefixStep(schema, i);
      adapted := Put(adapted, movement.id, Obj(movementData));
    }
    PrefixAll(schema);
    return Ok(adapted);
  }

  /** The body of the movement loop. */
  method AdaptMovement(movement: MovementSpec, scores: JsValue) returns (movementData: Dict<JsValue>)
    ensures Obj(movementData) == AdaptedMovement(movement, scores)
  {
    var inputScores := Or(Prop(scores, movement.id), Obj([]));
    movementData := [("score", Int(0))];
    if Asymmetrical(movement) {
      movementData := Put(movementData, "l_score", Int(0));
      movementData := Put(movementData, "r_score", Int(0));
      ScoredPuts();
    }
    if HasClearingTest(movement) {
      ScoredKeys(movement);
      PutAbsentAppends(movementData, "clearing_pain", Bool(Truthy(Prop(inputScores, "clearing_pain"))));
      movementData := Put(movementData, "clearing_pain", Bool(Truthy(Prop(inputScores, "clearing_pain"))));
    }
    for j := 0 to |movement.sections|
      invariant movementData == MovementData(movement, movement.sections[..j], inputScores)
    {
      var section := movement.sections[j];
      var sectionData := AdaptSection(section, inputScores);
      PrefixStep(movement.sections, j);
      movementData := Put(movementData, section.id, Obj(sectionData));
    }
    PrefixAll(movement.sections);
  }

  /** The body of the section loop. */
  method AdaptSection(section: SectionSpec, inputScores: JsValue) returns (sectionData: Dict<JsValue>)
    ensures sectionData == SectionData(section.observations, inputScores)
  {
    sectionData := [];
    for k := 0 to |section.observations|
      invariant sectionData == SectionData(section.observations[..k], inputScores)
    {
      var key := section.observations[k];
      var rawVal := Prop(inputScores, key);
      PrefixStep(section.observations, k);
      sectionData := Put(sectionData, key, ParseInt(Or(rawVal, Int(0)), Decimal));
    }
    PrefixAll(section.observations);
  }

  // ------------------------------------------------------------- properties

  /** An absent or falsy observation reads as 0; an integer observation is passed through. */
  lemma ObservationDefaults(inputScores: JsValue, key: string)
    ensures !Truthy(Prop(inputScores, key)) ==> ObservationValue(inputScores, key) == Int(0)
    ensures Prop(inputScores, key).Int? ==> ObservationValue(inputScores, key) == Prop(inputScores, key)
  {
    ParseIntPrintsBack(0, Decimal);
    if Prop(inputScores, key).Int? {
      ParseIntPrintsBack(Prop(inputScores, key).i, Decimal);
    }
  }

  /** A non-numeric string observation becomes NaN, not 0. */
  lemma ObservationNotANumber(inputScores: JsValue, key: string, s: string)
    requires Prop(inputScores, key) == Str(s)
    requires s != [] && !Text.JsSpace(s[0]) && !Text.IsDigit(s[0]) && s[0] != '-' && s[0] != '+'
    ensures ObservationValue(inputScores, key) == NaN
  {
    ParseIntRejectsNonNumeric(s, Decimal);
  }

  /** The keys of a movement entry before its sections, in order. */
  function HeadKeys(m: MovementSpec): seq<string>
  {
    var scored := if Asymmetrical(m) then ["score", "l_score", "r_score"] else ["score"];
    if HasClearingTest(m) then scored + ["clearing_pain"] else scored
  }

  /** The head holds distinct score fields only. */
  lemma HeadKeysShape(m: MovementSpec, inputScores: JsValue)
    ensures Keys(MovementHead(m, inputScores)) == HeadKeys(m)
    ensures Distinct(HeadKeys(m))
    ensures forall x :: x in HeadKeys(m) ==> x in ScoreFields
  {
    var h := MovementHead(m, inputScores);
    assert Keys(h) == HeadKeys(m);
  }

  // The loops assign keys that are new whenever the schema is well formed, so
  // each loop then appends: these are the appended lists.

  /** The entries the observation loop appends for `keys`. */
  function SectionEntries(keys: seq<string>, inputScores: JsValue): Dict<JsValue>
    decreases |keys|
  {
    if keys == [] then []
    else SectionEntries(keys[..|keys| - 1], inputScores) + [(keys[|keys| - 1], ObservationValue(inputScores, keys[|keys| - 1]))]
  }

  lemma {:induction false} SectionEntriesKeys(keys: seq<string>, inputScores: JsValue)
    ensures Keys(SectionEntries(keys, inputScores)) == keys
    decreases |keys|
  {
    if keys != [] {
      var n := |keys| - 1;
      SectionEntriesKeys(keys[..n], inputScores);
      KeysConcat(SectionEntries(keys[..n], inputScores), [(keys[n], ObservationValue(inputScores, keys[n]))]);
      PrefixStep(keys, n);
      PrefixAll(keys);
    }
  }

  lemma {:induction false} SectionEntriesAt(keys: seq<string>, inputScores: JsValue, j: nat)
    requires j < |keys|
    ensures |SectionEntries(keys, inputScores)| == |keys|
    ensures SectionEntries(keys, inputScores)[j] == (keys[j], ObservationValue(inputScores, keys[j]))
    decreases |keys|
  {
    var n := |keys| - 1;
    var init, last := keys[..n], keys[n];
    var es := SectionEntries(init, inputScores);
    if n > 0 {
      SectionEntriesAt(init, inputScores, if j < n then j else n - 1);
    }
    SnocAt(es, (last, ObservationValue(inputScores, last)), j);
    if j < n {
      assert init[j] == keys[j];
    }
  }

  /** With distinct keys the observation loop only appends. */
  lemma {:induction false} SectionDataAppends(keys: seq<string>, inputScores: JsValue)
    requires Distinct(keys)
    ensures SectionData(keys, inputScores) == SectionEntries(keys, inputScores)
    decreases |keys|
  {
    if keys != [] {
      var n := |keys| - 1;
      DistinctDropLast(keys);
      SectionDataAppends(keys[..n], inputScores);
      SectionEntriesKeys(keys[..n], inputScores);
      PutAbsentAppends(SectionEntries(keys[..n], inputScores), keys[n], ObservationValue(inputScores, keys[n]));
    }
  }

  /** A section holds exactly its observation keys, in schema order, each with its parsed value. */
  lemma SectionShape(keys: seq<string>, inputScores: JsValue)
    requires Distinct(keys)
    ensures Keys(SectionData(keys, inputScores)) == keys
    ensures forall j :: 0 <= j < |keys| ==> Lookup(SectionData(keys, inputScores), keys[j]) == Some(ObservationValue(inputScores, keys[j]))
  {
    SectionDataAppends(keys, inputScores);
    SectionEntriesKeys(keys, inputScores);
    forall j | 0 <= j < |keys|
      ensures Lookup(SectionData(keys, inputScores), keys[j]) == Some(ObservationValue(inputScores, keys[j]))
    {
      SectionEntriesAt(keys, inputScores, j);
      LookupAt(SectionEntries(keys, inputScores), j);
    }
  }

  /** The entries the section loop appends for `sections`. */
  function SectionsEntries(sections: seq<SectionSpec>, inputScores: JsValue): Dict<JsValue>
    decreases |sections|
  {
    if sections == [] then []
    else
      var last := sections[|sections| - 1];
      SectionsEntries(sections[..|sections| - 1], inputScores) + [(last.id, Obj(SectionData(last.observations, inputScores)))]
  }

  lemma {:induction false} SectionsEntriesKeys(sections: seq<SectionSpec>, inputScores: JsValue)
    ensures Keys(SectionsEntries(sections, inputScores)) == SectionIds(sections)
    decreases |sections|
  {
    if sections != [] {
      var n := |sections| - 1;
      var last := sections[n];
      SectionsEntriesKeys(sections[..n], inputScores);
      KeysConcat(SectionsEntries(sections[..n], inputScores), [(last.id, Obj(SectionData(last.observations, inputScores)))]);
    }
  }

  lemma {:induction false} SectionsEntriesAt(sections: seq<SectionSpec>, inputScores: JsValue, j: nat)
    requires j < |sections|
    ensures |SectionsEntries(sections, inputScores)| == |sections|
    ensures SectionsEntries(sections, inputScores)[j] == (sections[j].id, Obj(SectionData(sections[j].observations, inputScores)))
    decreases |sections|
  {
    var n := |sections| - 1;
    var init, last := sections[..n], sections[n];
    var es := SectionsEntries(init, inputScores);
    if n > 0 {
      SectionsEntriesAt(init, inputScores, if j < n then j else n - 1);
    }
    SnocAt(es, (last.id, Obj(SectionData(last.observations, inputScores))), j);
    if j < n {
      assert init[j] == sections[j];
    }
  }

  /** With section ids new to the head and to each other, the section loop only appends. */
  lemma {:induction false} MovementDataAppends(m: MovementSpec, sections: seq<SectionSpec>, inputScores: JsValue)
    requires Distinct(HeadKeys(m) + SectionIds(sections))
    ensures MovementData(m, sections, inputScores) == MovementHead(m, inputScores) + SectionsEntries(sections, inputScores)
    decreases |sections|
  {
    if sections != [] {
      var n := |sections| - 1;
      var init := sections[..n];
      var last := sections[n];
      var e := (last.id, Obj(SectionData(last.observations, inputScores)));
      AppendAssoc(HeadKeys(m), SectionIds(init), [last.id]);
      DistinctDropLast(HeadKeys(m) + SectionIds(sections));
      MovementDataAppends(m, init, inputScores);
      HeadKeysShape(m, inputScores);
      SectionsEntriesKeys(init, inputScores);
      KeysConcat(MovementHead(m, inputScores), SectionsEntries(init, inputScores));
      PutAbsentAppends(MovementHead(m, inputScores) + SectionsEntries(init, inputScores), e.0, e.1);
      AppendAssoc(MovementHead(m, inputScores), SectionsEntries(init, inputScores), [e]);
    }
  }

  /** In a well-formed movement the head keys and the section ids are all distinct. */
  lemma MovementKeysDistinct(m: MovementSpec)
    requires WellFormedMovement(m)
    ensures Distinct(HeadKeys(m) + SectionIds(m.sections))
  {
    HeadKeysShape(m, Obj([]));
    DistinctConcat(HeadKeys(m), SectionIds(m.sections));
  }

  /** A movement's entry holds its score fields followed by its section ids. */
  lemma MovementKeys(m: MovementSpec, inputScores: JsValue)
    requires WellFormedMovement(m)
    ensures Keys(MovementData(m, m.sections, inputScores)) == HeadKeys(m) + SectionIds(m.sections)
  {
    MovementKeysDistinct(m);
    MovementDataAppends(m, m.sections, inputScores);
    HeadKeysShape(m, inputScores);
    SectionsEntriesKeys(m.sections, inputScores);
    KeysConcat(MovementHead(m, inputScores), SectionsEntries(m.sections, inputScores));
  }

  /**
   * The score fields of a movement's entry: `score` is 0, `l_score` and
   * `r_score` are 0 exactly when the movement is asymmetrical, and
   * `clearing_pain` is `Boolean(inputScores.clearing_pain)` exactly when it
   * has a clearing test.
   */
  lemma MovementScores(m: MovementSpec, inputScores: JsValue)
    requires WellFormedMovement(m)
    ensures Lookup(MovementData(m, m.sections, inputScores), "score") == Some(Int(0))
    ensures Lookup(MovementData(m, m.sections, inputScores), "l_score") == if Asymmetrical(m) then Some(Int(0)) else None
    ensures Lookup(MovementData(m, m.sections, inputScores), "r_score") == if Asymmetrical(m) then Some(Int(0)) else None
    ensures Lookup(MovementData(m, m.sections, inputScores), "clearing_pain")
      == if HasClearingTest(m) then Some(Bool(Truthy(Prop(inputScores, "clearing_pain")))) else None
  {
    var h := MovementHead(m, inputScores);
    var es := SectionsEntries(m.sections, inputScores);
    MovementKeysDistinct(m);
    MovementKeys(m, inputScores);
    MovementDataAppends(m, m.sections, inputScores);
    SectionsEntriesKeys(m.sections, inputScores);
    HeadScores(m, inputScores, es);
  }

  /** The score-field lookups in a head followed by entries whose keys are not score fields. */
  lemma HeadScores(m: MovementSpec, inputScores: JsValue, es: Dict<JsValue>)
    requires Distinct(Keys(MovementHead(m, inputScores) + es))
    requires forall x :: x in ScoreFields ==> x !in Keys(es)
    ensures Lookup(MovementHead(m, inputScores) + es, "score") == Some(Int(0))
    ensures Lookup(MovementHead(m, inputScores) + es, "l_score") == if Asymmetrical(m) then Some(Int(0)) else None
    ensures Lookup(MovementHead(m, inputScores) + es, "r_score") == if Asymmetrical(m) then Some(Int(0)) else None
    ensures Lookup(MovementHead(m, inputScores) + es, "clearing_pain")
      == if HasClearingTest(m) then Some(Bool(Truthy(Prop(inputScores, "clearing_pain")))) else None
  {
    var h := MovementHead(m, inputScores);
    HeadKeysShape(m, inputScores);
    KeysConcat(h, es);
    assert "l_score" in ScoreFields && "r_score" in ScoreFields && "clearing_pain" in ScoreFields;
    LookupInFirst(h, es, 0);
    if Asymmetrical(m) {
      LookupInFirst(h, es, 1);
      LookupInFirst(h, es, 2);
    }
    if HasClearingTest(m) {
      LookupInFirst(h, es, |h| - 1);
    }
  }

  /** Each section of a movement maps to the data of its observations. */
  lemma MovementSections(m: MovementSpec, inputScores: JsValue, j: nat)
    requires WellFormedMovement(m) && j < |m.sections|
    ensures Lookup(MovementData(m, m.sections, inputScores), m.sections[j].id) == Some(Obj(SectionData(m.sections[j].observations, inputScores)))
  {
    var h := MovementHead(m, inputScores);
    var es := SectionsEntries(m.sections, inputScores);
    MovementKeysDistinct(m);
    MovementKeys(m, inputScores);
    MovementDataAppends(m, m.sections, inputScores);
    SectionsEntriesAt(m.sections, inputScores, j);
    LookupInSecond(h, es, j);
  }

  /** The entries the movement loop appends for `schema`. */
  function AdaptedEntries(schema: seq<MovementSpec>, scores: JsValue): Dict<JsValue>
    decreases |schema|
  {
    if schema == [] then []
    else
      var last := schema[|schema| - 1];
      AdaptedEntries(schema[..|schema| - 1], scores) + [(last.id, AdaptedMovement(last, scores))]
  }

  lemma {:induction false} AdaptedEntriesKeys(schema: seq<MovementSpec>, scores: JsValue)
    ensures Keys(AdaptedEntries(schema, scores)) == MovementIds(schema)
    decreases |schema|
  {
    if schema != [] {
      var n := |schema| - 1;
      var last := schema[n];
      AdaptedEntriesKeys(schema[..n], scores);
      KeysConcat(AdaptedEntries(schema[..n], scores), [(last.id, AdaptedMovement(last, scores))]);
    }
  }

  lemma {:induction false} AdaptedEntriesAt(schema: seq<MovementSpec>, scores: JsValue, i: nat)
    requires i < |schema|
    ensures |AdaptedEntries(schema, scores)| == |schema|
    ensures AdaptedEntries(schema, scores)[i] == (schema[i].id, AdaptedMovement(schema[i], scores))
    decreases |schema|
  {
    var n := |schema| - 1;
    var init, last := schema[..n], schema[n];
    var es := AdaptedEntries(init, scores);
    if n > 0 {
      AdaptedEntriesAt(init, scores, if i < n then i else n - 1);
    }
    SnocAt(es, (last.id, AdaptedMovement(last, scores)), i);
    if i < n {
      assert init[i] == schema[i];
    }
  }

  /** With movement ids new to the flag and to each other, the movement loop only appends. */
  lemma {:induction false} AdaptedAppends(schema: seq<MovementSpec>, scores: JsValue)
    requires Distinct([ManualFlag] + MovementIds(schema))
    ensures Adapted(schema, scores) == [(ManualFlag, Bool(false))] + AdaptedEntries(schema, scores)
    decreases |schema|
  {
    if schema != [] {
      var n := |schema| - 1;
      var init := schema[..n];
      var last := schema[n];
      var e := (last.id, AdaptedMovement(last, scores));
      var flag := [(ManualFlag, Bool(false))];
      AppendAssoc([ManualFlag], MovementIds(init), [last.id]);
      DistinctDropLast([ManualFlag] + MovementIds(schema));
      AdaptedAppends(init, scores);
      AdaptedEntriesKeys(init, scores);
      KeysConcat(flag, AdaptedEntries(init, scores));
      PutAbsentAppends(flag + AdaptedEntries(init, scores), e.0, e.1);
      AppendAssoc(flag, AdaptedEntries(init, scores), [e]);
    }
  }

  /**
   * The adapted payload is `use_manual_scores: false` followed by one entry
   * per schema movement, in schema order; no other key of the input
   * appears in it.
   */
  lemma AdaptedShape(schema: seq<MovementSpec>, scores: JsValue)
    requires Distinct(MovementIds(schema)) && ManualFlag !in MovementIds(schema)
    ensures Keys(Adapted(schema, scores)) == [ManualFlag] + MovementIds(schema)
    ensures Lookup(Adapted(schema, scores), ManualFlag) == Some(Bool(false))
    ensures forall i :: 0 <= i < |schema| ==> Lookup(Adapted(schema, scores), schema[i].id) == Some(AdaptedMovement(schema[i], scores))
  {
    var flag := [(ManualFlag, Bool(false))];
    var es := AdaptedEntries(schema, scores);
    var adapted := Adapted(schema, scores);
    DistinctConcat([ManualFlag], MovementIds(schema));
    AdaptedAppends(schema, scores);
    AdaptedEntriesKeys(schema, scores);
    KeysConcat(flag, es);
    LookupInFirst(flag, es, 0);
    forall i | 0 <= i < |schema|
      ensures Lookup(adapted, schema[i].id) == Some(AdaptedMovement(schema[i], scores))
    {
      AdaptedEntriesAt(schema, scores, i);
      LookupInSecond(flag, es, i);
    }
  }

  /** A missing or falsy `assessment_input` adapts exactly like an empty one. */
  lemma MissingInputIsEmpty(schema: seq<MovementSpec>, specPayload: JsValue)
    requires !Nullish(specPayload) && !Truthy(Prop(specPayload, "assessment_input"))
    ensures Adapt(schema, specPayload) == Adapt(schema, Obj([("assessment_input", Obj([]))]))
  {
    assert Prop(Obj([("assessment_input", Obj([]))]), "assessment_input") == Obj([]);
  }
}
