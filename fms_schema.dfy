/**
 * The FMS assessment schema (`fms-v1.json`) that both the front-end adapter
 * and the assessment screen walk.  The schema file itself is not part of
 * this model, so it is a parameter: a sequence of movements, each with an
 * id, an optional `score_config` object and a sequence of sections, each
 * section naming its observation keys.
 */
module FmsSchema {
  import opened Dicts
  import opened Js

  datatype SectionSpec = SectionSpec(id: string, observations: seq<string>)

  datatype MovementSpec = MovementSpec(id: string, scoreConfig: JsValue, sections: seq<SectionSpec>)

  /** `movement.score_config?.type === "asymmetrical"`. */
  predicate Asymmetrical(m: MovementSpec)
  {
    Prop(m.scoreConfig, "type") == Str("asymmetrical")
  }

  /** `movement.score_config?.clearing_test` is truthy. */
  predicate HasClearingTest(m: MovementSpec)
  {
    Truthy(Prop(m.scoreConfig, "clearing_test"))
  }

  const ManualFlag := "use_manual_scores"

  /** The per-movement fields that are not sections. */
  const ScoreFields := ["score", "l_score", "r_score", "clearing_pain"]

  function MovementIds(schema: seq<MovementSpec>): (ids: seq<string>)
    decreases |schema|
    ensures |ids| == |schema|
    ensures forall i :: 0 <= i < |schema| ==> ids[i] == schema[i].id
  {
    if schema == [] then [] else MovementIds(schema[..|schema| - 1]) + [schema[|schema| - 1].id]
  }

  function SectionIds(sections: seq<SectionSpec>): (ids: seq<string>)
    decreases |sections|
    ensures |ids| == |sections|
    ensures forall i :: 0 <= i < |sections| ==> ids[i] == sections[i].id
  {
    if sections == [] then [] else SectionIds(sections[..|sections| - 1]) + [sections[|sections| - 1].id]
  }

  /**
   * A schema whose names do not collide: movement ids are distinct and
   * differ from the manual-scores flag; within a movement, section ids are
   * distinct and differ from the score fields; within a section,
   * observation keys are distinct.
   */
  predicate WellFormedMovement(m: MovementSpec)
  {
    && Distinct(SectionIds(m.sections))
    && (forall x :: x in ScoreFields ==> x !in SectionIds(m.sections))
    && (forall j :: 0 <= j < |m.sections| ==> Distinct(m.sections[j].observations))
  }

  predicate WellFormed(schema: seq<MovementSpec>)
  {
    && Distinct(MovementIds(schema))
    && ManualFlag !in MovementIds(schema)
    && (forall i :: 0 <= i < |schema| ==> WellFormedMovement(schema[i]))
  }
}
