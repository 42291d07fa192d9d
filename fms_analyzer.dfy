/**
 * The scoring brain: turns a nested FMS profile into one effective score per
 * test and then into a "traffic light" status with a target training level.
 *
 * The per-test decision trees are kept as data: each tree is a ladder of
 * rules, each rule an `or` (or `and`) chain of probes `section.get(key, 0) > 0`
 * or `section.get(key, 0) == 0`, evaluated left to right with Python's
 * short-circuiting, and the first rule that holds gives the score.  A section
 * that is present but not a dict raises AttributeError at the probe that
 * reads it; a non-numeric observation raises TypeError at `> 0`.
 */
module FmsAnalyzer {
  import opened Outcomes
  import opened Dicts
  import opened Py

  // ---------------------------------------------------------------------
  // Decision trees
  // ---------------------------------------------------------------------

  datatype Comparison = Positive | Zero

  /** `sub_data.get(section, {}).get(key, 0) > 0` (Positive) or `== 0` (Zero). */
  datatype Probe = Probe(section: string, key: string, cmp: Comparison)

  datatype Chain = AnyOf(probes: seq<Probe>) | AllOf(probes: seq<Probe>)

  datatype Rule = Rule(when: Chain, score: int)

  /** Rules tried in order; `fallback` is the final `return`. */
  datatype Tree = Tree(rules: seq<Rule>, fallback: int)

  function EvalProbe(sub: Dict<PyValue>, p: Probe): (r: Result<bool, PyError>)
  {
    var section := Get(sub, p.section, PyDict([]));
    if !section.PyDict? then Err(NoAttribute(section, "get"))
    else
      var v := Get(section.entries, p.key, PyInt(0));
      match p.cmp
      case Positive => Greater(v, 0)
      case Zero => Ok(EqualsInt(v, 0))
  }

  /** `p1 or p2 or ...`: stops at the first probe that holds or raises. */
  function EvalAny(sub: Dict<PyValue>, ps: seq<Probe>): (r: Result<bool, PyError>)
    ensures r == Ok(false) ==> forall i :: 0 <= i < |ps| ==> EvalProbe(sub, ps[i]) == Ok(false)
    ensures r == Ok(true) ==> exists i :: 0 <= i < |ps| && EvalProbe(sub, ps[i]) == Ok(true)
  {
    if ps == [] then Ok(false)
    else
      match EvalProbe(sub, ps[0])
      case Err(e) => Err(e)
      case Ok(b) => if b then Ok(true) else EvalAny(sub, ps[1..])
  }

  /** `p1 and p2 and ...`: stops at the first probe that fails or raises. */
  function EvalAll(sub: Dict<PyValue>, ps: seq<Probe>): (r: Result<bool, PyError>)
    ensures r == Ok(true) ==> forall i :: 0 <= i < |ps| ==> EvalProbe(sub, ps[i]) == Ok(true)
    ensures r == Ok(false) ==> exists i :: 0 <= i < |ps| && EvalProbe(sub, ps[i]) == Ok(false)
  {
    if ps == [] then Ok(true)
    else
      match EvalProbe(sub, ps[0])
      case Err(e) => Err(e)
      case Ok(b) => if !b then Ok(false) else EvalAll(sub, ps[1..])
  }

  function EvalChain(sub: Dict<PyValue>, c: Chain): Result<bool, PyError>
  {
    match c
    case AnyOf(ps) => EvalAny(sub, ps)
    case AllOf(ps) => EvalAll(sub, ps)
  }

  /** The first rule that holds gives the score; the result is always one of the tree's scores. */
  function EvalRules(sub: Dict<PyValue>, rules: seq<Rule>, fallback: int): (r: Result<int, PyError>)
    ensures r.Ok? ==> r.value == fallback || exists i :: 0 <= i < |rules| && rules[i].score == r.value
  {
    if rules == [] then Ok(fallback)
    else
      match EvalChain(sub, rules[0].when)
      case Err(e) => Err(e)
      case Ok(b) =>
        if b then Ok(rules[0].score)
        else
          var rest := EvalRules(sub, rules[1..], fallback);
          assert rest.Ok? && rest.value != fallback ==> exists i :: 1 <= i < |rules| && rules[i].score == rest.value by {
            if rest.Ok? && rest.value != fallback {
              var i :| 0 <= i < |rules[1..]| && rules[1..][i].score == rest.value;
              assert rules[i + 1].score == rest.value;
            }
          }
          rest
  }

  function Pos(section: string, key: string): Probe { Probe(section, key, Positive) }
  function IsZero(section: string, key: string): Probe { Probe(section, key, Zero) }

  const OverheadSquatTree := Tree([
    Rule(AnyOf([Pos("trunk_torso", "excessive_forward_lean"), Pos("trunk_torso", "lumbar_flexion"),
                Pos("lower_limb", "knee_valgus"), Pos("feet", "heels_lift"),
                Pos("upper_body_bar_position", "bar_drifts_forward"), IsZero("trunk_torso", "upright_torso")]), 1),
    Rule(AnyOf([Pos("feet", "heels_lift")]), 2)
  ], 3)

  const HurdleStepTree := Tree([
    Rule(AnyOf([Pos("stepping_leg", "toe_drag"), Pos("pelvis_core_control", "loss_of_balance")]), 1),
    Rule(AnyOf([Pos("pelvis_core_control", "excessive_rotation"), Pos("stance_leg", "knee_valgus"),
                Pos("stance_leg", "knee_varus"), IsZero("stance_leg", "knee_stable")]), 2)
  ], 3)

  const InlineLungeTree := Tree([
    Rule(AnyOf([Pos("balance_stability", "loss_of_balance")]), 1),
    Rule(AnyOf([Pos("alignment", "excessive_forward_lean"), Pos("alignment", "lateral_shift"),
                Pos("lower_body_control", "knee_valgus"), Pos("lower_body_control", "heel_lift"),
                IsZero("lower_body_control", "knee_tracks_over_foot")]), 2)
  ], 3)

  const ShoulderMobilityTree := Tree([
    Rule(AnyOf([Pos("reach_quality", "excessive_gap"), Pos("reach_quality", "asymmetry_present")]), 1),
    Rule(AnyOf([Pos("compensation", "rib_flare"), Pos("compensation", "scapular_winging")]), 2),
    Rule(AnyOf([Pos("reach_quality", "hands_within_fist_distance")]), 3)
  ], 2)

  const StraightLegRaiseTree := Tree([
    Rule(AnyOf([Pos("moving_leg", "lt_60_hip_flexion"), Pos("non_moving_leg", "foot_lifts_off_floor")]), 1),
    Rule(AnyOf([Pos("pelvic_control", "anterior_tilt"), Pos("moving_leg", "hamstring_restriction")]), 2),
    Rule(AllOf([Pos("moving_leg", "gt_80_hip_flexion"), Pos("pelvic_control", "pelvis_stable")]), 3)
  ], 2)

  const TrunkStabilityTree := Tree([
    Rule(AnyOf([Pos("core_control", "hips_lag"), Pos("body_alignment", "sagging_hips")]), 1),
    Rule(AnyOf([Pos("upper_body", "uneven_arm_push"), Pos("upper_body", "shoulder_instability")]), 2)
  ], 3)

  const RotaryStabilityTree := Tree([
    Rule(AnyOf([Pos("diagonal_pattern", "unable_to_complete")]), 1),
    Rule(AnyOf([Pos("diagonal_pattern", "loss_of_balance"), Pos("spinal_control", "excessive_rotation")]), 2),
    Rule(AnyOf([Pos("diagonal_pattern", "smooth_controlled")]), 3)
  ], 1)

  const KnownTests := {"overhead_squat", "hurdle_step", "inline_lunge", "shoulder_mobility",
                       "active_straight_leg_raise", "trunk_stability_pushup", "rotary_stability"}

  /** The decision tree for a test name; an unrecognised name has no rules and scores 3. */
  function TreeFor(testName: string): (t: Tree)
    ensures testName !in KnownTests ==> t == Tree([], 3)
    ensures 1 <= t.fallback <= 3 && forall i :: 0 <= i < |t.rules| ==> 1 <= t.rules[i].score <= 3
  {
    match testName
    case "overhead_squat" => OverheadSquatTree
    case "hurdle_step" => HurdleStepTree
    case "inline_lunge" => InlineLungeTree
    case "shoulder_mobility" => ShoulderMobilityTree
    case "active_straight_leg_raise" => StraightLegRaiseTree
    case "trunk_stability_pushup" => TrunkStabilityTree
    case "rotary_stability" => RotaryStabilityTree
    case _ => Tree([], 3)
  }

  const PainProbe := Pos("pain", "pain_reported")

  /**
   * `calculate_score_from_faults`: the pain checks first (a reported pain or
   * a truthy `clearing_pain` scores 0), then the test's tree.  Every score it
   * returns lies in 0..3.
   */
  function CalculateScoreFromFaults(testName: string, testData: Dict<PyValue>): (r: Result<int, PyError>)
    ensures r.Ok? ==> 0 <= r.value <= 3
  {
    var sub := Remove(testData, "score");
    match EvalProbe(sub, PainProbe)
    case Err(e) => Err(e)
    case Ok(pain) =>
      if pain then Ok(0)
      else if Truthy(Get(testData, "clearing_pain", PyBool(false))) then Ok(0)
      else
        var t := TreeFor(testName);
        EvalRules(sub, t.rules, t.fallback)
  }

  /** A positive numeric `pain.pain_reported` scores 0 before any test-specific rule is looked at. */
  lemma PainReportedScoresZero(testName: string, testData: Dict<PyValue>, pain: Dict<PyValue>, v: PyValue)
    requires Lookup(testData, "pain") == Some(PyDict(pain))
    requires Lookup(pain, "pain_reported") == Some(v) && IsNumber(v) && NumberValue(v) > 0
    ensures CalculateScoreFromFaults(testName, testData) == Ok(0)
  {
    assert Get(Remove(testData, "score"), "pain", PyDict([])) == PyDict(pain);
  }

  /** With no pain reported, a truthy `clearing_pain` scores 0 whatever the test. */
  lemma ClearingPainScoresZero(testName: string, testData: Dict<PyValue>)
    requires "pain" !in Keys(testData)
    requires "clearing_pain" in Keys(testData) && Truthy(Get(testData, "clearing_pain", PyBool(false)))
    ensures CalculateScoreFromFaults(testName, testData) == Ok(0)
  {
    assert Lookup(Remove(testData, "score"), "pain") == None;
  }

  /** A test name without a tree scores 3 unless a pain check fires first. */
  lemma UnknownTestScoresThree(testName: string, testData: Dict<PyValue>)
    requires testName !in KnownTests
    requires "pain" !in Keys(testData)
    requires !Truthy(Get(testData, "clearing_pain", PyBool(false)))
    ensures CalculateScoreFromFaults(testName, testData) == Ok(3)
  {
    assert Lookup(Remove(testData, "score"), "pain") == None;
  }

  /**
   * The overhead squat never scores 2: `heels_lift > 0` already belongs to
   * the major faults, so when the first rule fails the second cannot hold.
   */
  lemma OverheadSquatNeverTwo(testData: Dict<PyValue>)
    ensures var r := CalculateScoreFromFaults("overhead_squat", testData);
            r.Ok? ==> r.value in {0, 1, 3}
  {
    assert TreeFor("overhead_squat") == OverheadSquatTree;
    OverheadSquatRules(Remove(testData, "score"));
  }

  /** The squat's rules give 1 or the fallback 3, never the 2 of their second rule. */
  lemma OverheadSquatRules(sub: Dict<PyValue>)
    ensures var r := EvalRules(sub, OverheadSquatTree.rules, 3);
            r.Ok? ==> r.value == 1 || r.value == 3
  {
    var rules := OverheadSquatTree.rules;
    assert rules == [rules[0], rules[1]];
    SubsumedRuleNeverFires(sub, rules[0], rules[1], 3, 3);
  }

  /**
   * A second rule that only re-tests one probe of a first `or`-rule never
   * fires: when the first rule fails, that probe has already been false.
   */
  lemma SubsumedRuleNeverFires(sub: Dict<PyValue>, first: Rule, second: Rule, fallback: int, k: nat)
    requires first.when.AnyOf? && k < |first.when.probes| && second.when == AnyOf([first.when.probes[k]])
    ensures var r := EvalRules(sub, [first, second], fallback);
            r.Ok? ==> r.value == first.score || r.value == fallback
  {
    assert [first, second][1..] == [second] && [second][1..] == [];
    var p := first.when.probes[k];
    if EvalAny(sub, first.when.probes) == Ok(false) {
      assert EvalProbe(sub, p) == Ok(false);
      assert [p][1..] == [];
    }
  }

  // ---------------------------------------------------------------------
  // Effective-score selection
  // ---------------------------------------------------------------------

  /** `sum(d.values())`: TypeError at the first value that is not a number. */
  function SumValues(d: Dict<PyValue>): (r: Result<int, PyError>)
    ensures r.Ok? <==> forall i :: 0 <= i < |d| ==> IsNumber(d[i].1)
  {
    if d == [] then Ok(0)
    else if !IsNumber(d[0].1) then
      Err(PyError(TypeError, "unsupported operand type(s) for +: 'int' and '" + TypeName(d[0].1) + "'"))
    else
      match SumValues(d[1..])
      case Err(e) => Err(e)
      case Ok(s) => Ok(NumberValue(d[0].1) + s)
  }

  /**
   * The inner loop's flag: some dict-valued field sums to more than 0.  The
   * scan stops at the first such field, so a malformed dict after it is
   * never summed.
   */
  function HasSubInputs(fields: Dict<PyValue>): Result<bool, PyError>
  {
    if fields == [] then Ok(false)
    else
      var v := fields[0].1;
      if v.PyDict? then
        match SumValues(v.entries)
        case Err(e) => Err(e)
        case Ok(s) => if s > 0 then Ok(true) else HasSubInputs(fields[1..])
      else HasSubInputs(fields[1..])
  }

  /**
   * The flag holds exactly when some dict-valued field sums to more than 0
   * and every dict before it could be summed; it is false exactly when every
   * dict-valued field sums to at most 0.
   */
  lemma HasSubInputsMeaning(fields: Dict<PyValue>)
    ensures HasSubInputs(fields) == Ok(true) <==>
      exists i :: 0 <= i < |fields| && FiresAt(fields, i) && SummableBefore(fields, i)
    ensures HasSubInputs(fields) == Ok(false) <==>
      forall i :: 0 <= i < |fields| && fields[i].1.PyDict? ==>
        SumValues(fields[i].1.entries).Ok? && SumValues(fields[i].1.entries).value <= 0
  {
    HasSubInputsTrue(fields);
    HasSubInputsFalse(fields);
  }

  /** Field `i` is a dict whose values sum to more than 0. */
  predicate FiresAt(fields: Dict<PyValue>, i: nat)
    requires i < |fields|
  {
    fields[i].1.PyDict? && SumValues(fields[i].1.entries).Ok? && SumValues(fields[i].1.entries).value > 0
  }

  /** Every dict among the first `i` fields can be summed. */
  predicate SummableBefore(fields: Dict<PyValue>, i: nat)
    requires i <= |fields|
  {
    forall j :: 0 <= j < i && fields[j].1.PyDict? ==> SumValues(fields[j].1.entries).Ok?
  }

  lemma {:induction false} HasSubInputsTrue(fields: Dict<PyValue>)
    ensures HasSubInputs(fields) == Ok(true) <==>
      exists i :: 0 <= i < |fields| && FiresAt(fields, i) && SummableBefore(fields, i)
  {
    if fields != [] {
      var rest := fields[1..];
      HasSubInputsTrue(rest);
      var v := fields[0].1;
      if FiresAt(fields, 0) {
        assert SummableBefore(fields, 0);
      } else if v.PyDict? && SumValues(v.entries).Err? {
        assert forall i :: 0 < i <= |fields| ==> !SummableBefore(fields, i);
      } else {
        assert HasSubInputs(fields) == HasSubInputs(rest);
        forall i | 0 < i < |fields|
          ensures FiresAt(fields, i) == FiresAt(rest, i - 1)
          ensures SummableBefore(fields, i) == SummableBefore(rest, i - 1)
        {
          assert fields[i] == rest[i - 1];
          assert forall j :: 0 < j < i ==> fields[j] == rest[j - 1];
        }
        if HasSubInputs(fields) == Ok(true) {
          var i :| 0 <= i < |rest| && FiresAt(rest, i) && SummableBefore(rest, i);
          assert FiresAt(fields, i + 1) && SummableBefore(fields, i + 1);
        }
      }
    }
  }

  lemma {:induction false} HasSubInputsFalse(fields: Dict<PyValue>)
    ensures HasSubInputs(fields) == Ok(false) <==>
      forall i :: 0 <= i < |fields| && fields[i].1.PyDict? ==>
        SumValues(fields[i].1.entries).Ok? && SumValues(fields[i].1.entries).value <= 0
  {
    if fields != [] {
      HasSubInputsFalse(fields[1..]);
      assert forall i :: 1 <= i < |fields| ==> fields[i] == fields[1..][i - 1];
    }
  }

  /** The score `score` field, defaulting to 2. */
  function ManualScore(testData: Dict<PyValue>): PyValue
  {
    Get(testData, "score", PyInt(2))
  }

  /**
   * One iteration of the main loop: the manual score in manual mode or when
   * no section was filled in, the calculated score otherwise.  A test entry
   * that is not a dict raises AttributeError at `.items()`.
   */
  function EffectiveScore(testName: string, testData: PyValue, useManualScores: bool): Result<PyValue, PyError>
  {
    if !testData.PyDict? then Err(NoAttribute(testData, "items"))
    else
      match HasSubInputs(testData.entries)
      case Err(e) => Err(e)
      case Ok(hasSubInputs) =>
        if useManualScores then Ok(ManualScore(testData.entries))
        else if hasSubInputs then
          match CalculateScoreFromFaults(testName, testData.entries)
          case Err(e) => Err(e)
          case Ok(s) => Ok(PyInt(s))
        else Ok(ManualScore(testData.entries))
  }

  const ManualFlag := "use_manual_scores"

  /** The main loop from a given point on, with the scores collected so far. */
  function EffectiveScoresFrom(rest: Dict<PyValue>, acc: Dict<PyValue>, useManualScores: bool): Result<Dict<PyValue>, PyError>
  {
    if rest == [] then Ok(acc)
    else if rest[0].0 == ManualFlag then EffectiveScoresFrom(rest[1..], acc, useManualScores)
    else
      match EffectiveScore(rest[0].0, rest[0].1, useManualScores)
      case Err(e) => Err(e)
      case Ok(s) => EffectiveScoresFrom(rest[1..], Put(acc, rest[0].0, s), useManualScores)
  }

  function EffectiveScores(profile: Dict<PyValue>, useManualScores: bool): Result<Dict<PyValue>, PyError>
  {
    EffectiveScoresFrom(profile, [], useManualScores)
  }

  /**
   * The effective scores have exactly one entry per key of the profile other
   * than the flag, each the effective score of that test.
   */
  lemma {:induction false} EffectiveScoresFromShape(rest: Dict<PyValue>, acc: Dict<PyValue>, useManualScores: bool)
    requires Distinct(Keys(acc)) && Distinct(Keys(rest))
    requires forall k :: k in Keys(rest) ==> k !in Keys(acc)
    requires ManualFlag !in Keys(acc)
    ensures var r := EffectiveScoresFrom(rest, acc, useManualScores);
            r.Ok? ==>
              && Distinct(Keys(r.value))
              && (forall k :: k in Keys(r.value) <==> k in Keys(acc) || (k in Keys(rest) && k != ManualFlag))
              && (forall k :: k in Keys(acc) ==> Lookup(r.value, k) == Lookup(acc, k))
              && (forall i :: 0 <= i < |rest| && rest[i].0 != ManualFlag ==>
                    Ok(Get(r.value, rest[i].0, PyNone)) == EffectiveScore(rest[i].0, rest[i].1, useManualScores))
    decreases |rest|
  {
    if rest != [] {
      var tail := rest[1..];
      assert Keys(rest) == [rest[0].0] + Keys(tail);
      assert Keys(tail) == Keys(rest)[1..];
      DistinctTail(Keys(rest));
      assert forall i :: 1 <= i < |rest| ==> rest[i] == tail[i - 1];
      if rest[0].0 == ManualFlag {
        EffectiveScoresFromShape(tail, acc, useManualScores);
      } else {
        var s := EffectiveScore(rest[0].0, rest[0].1, useManualScores);
        if s.Ok? {
          var acc' := Put(acc, rest[0].0, s.value);
          PutKeepsDistinct(acc, rest[0].0, s.value);
          assert Keys(acc') == Keys(acc) + [rest[0].0];
          EffectiveScoresFromShape(tail, acc', useManualScores);
        }
      }
    }
  }

  /** Python dicts have distinct keys; over such a profile the selection is one score per test. */
  lemma {:induction false} EffectiveScoresShape(profile: Dict<PyValue>, useManualScores: bool)
    requires Distinct(Keys(profile))
    ensures var r := EffectiveScores(profile, useManualScores);
            r.Ok? ==>
              && Distinct(Keys(r.value))
              && (forall k :: k in Keys(r.value) <==> k in Keys(profile) && k != ManualFlag)
              && (forall i :: 0 <= i < |profile| && profile[i].0 != ManualFlag ==>
                    Ok(Get(r.value, profile[i].0, PyNone)) == EffectiveScore(profile[i].0, profile[i].1, useManualScores))
  {
    var none: Dict<PyValue> := [];
    assert Keys(none) == [];
    EffectiveScoresFromShape(profile, none, useManualScores);
    var r := EffectiveScoresFrom(profile, none, useManualScores);
    assert EffectiveScores(profile, useManualScores) == r;
    if r.Ok? {
      forall k ensures k in Keys(r.value) <==> k in Keys(profile) && k != ManualFlag {
        assert k !in Keys(none);
      }
    }
  }

  /** The selection fails exactly when some test's own selection fails. */
  lemma {:induction false} EffectiveScoresFromOk(rest: Dict<PyValue>, acc: Dict<PyValue>, useManualScores: bool)
    ensures EffectiveScoresFrom(rest, acc, useManualScores).Ok? <==>
            forall i :: 0 <= i < |rest| && rest[i].0 != ManualFlag ==> EffectiveScore(rest[i].0, rest[i].1, useManualScores).Ok?
    decreases |rest|
  {
    if rest != [] {
      var tail := rest[1..];
      assert forall i :: 1 <= i < |rest| ==> rest[i] == tail[i - 1];
      if rest[0].0 == ManualFlag {
        EffectiveScoresFromOk(tail, acc, useManualScores);
      } else {
        var s := EffectiveScore(rest[0].0, rest[0].1, useManualScores);
        if s.Ok? {
          EffectiveScoresFromOk(tail, Put(acc, rest[0].0, s.value), useManualScores);
        }
      }
    }
  }

  // ---------------------------------------------------------------------
  // Traffic light
  // ---------------------------------------------------------------------

  datatype Status = Stop | Mobility | Stability | Pattern | Strength | Power

  function StatusName(s: Status): string
  {
    match s
    case Stop => "STOP"
    case Mobility => "MOBILITY"
    case Stability => "STABILITY"
    case Pattern => "PATTERN"
    case Strength => "STRENGTH"
    case Power => "POWER"
  }

  /** The target level each status carries. */
  function TargetLevel(s: Status): int
  {
    match s
    case Stop => 0
    case Mobility => 1
    case Stability => 3
    case Pattern => 5
    case Strength => 7
    case Power => 9
  }

  function Reason(s: Status): string
  {
    match s
    case Stop => "Pain detected (Score 0 in one or more tests). Refer to medical professional."
    case Mobility => "Mobility Restriction (Score 1 in ASLR or SM)"
    case Stability => "Motor Control Failure (Score 1 in TS or RS)"
    case Pattern => "Pattern Dysfunction (Score 1 in Squat/Hurdle/Lunge)"
    case Strength => "Acceptable Patterning (Score 2). Cleared for Strength."
    case Power => "Perfect Patterning (Score 3). Cleared for Power."
  }

  /** The returned dict: status, target level, reason and the effective scores. */
  datatype Analysis = Analysis(status: Status, targetLevel: int, reason: string, effectiveScores: Dict<PyValue>)

  /** The dict the analyzer returns, keys in the order it writes them. */
  function AnalysisDict(a: Analysis): (d: Dict<PyValue>)
    ensures Keys(d) == ["status", "target_level", "reason", "effective_scores"]
  {
    [("status", PyStr(StatusName(a.status))), ("target_level", PyInt(a.targetLevel)), ("reason", PyStr(a.reason)),
     ("effective_scores", PyDict(a.effectiveScores))]
  }

  function Verdict(s: Status, scores: Dict<PyValue>): Analysis
  {
    Analysis(s, TargetLevel(s), Reason(s), scores)
  }

  /** `effective_scores.get(k, 3)`: a missing test counts as 3. */
  function ScoreOf(scores: Dict<PyValue>, k: string): PyValue
  {
    Get(scores, k, PyInt(3))
  }

  predicate AnyZero(scores: Dict<PyValue>)
  {
    exists i :: 0 <= i < |scores| && EqualsInt(scores[i].1, 0)
  }

  /**
   * Python's `min(a, b, c)`: keeps the running minimum and replaces it only
   * by a later item that is `<` it, so the first of equal minima is kept; the
   * comparisons `b < a` and then `c < m` raise on operands that do not compare.
   */
  function Min3(a: PyValue, b: PyValue, c: PyValue): (r: Result<PyValue, PyError>)
    ensures r.Ok? <==> (IsNumber(a) && IsNumber(b) && IsNumber(c)) || (a.PyStr? && b.PyStr? && c.PyStr?)
    ensures !Comparable(b, a) ==> r == Err(NotComparable("<", b, a))
    ensures Comparable(b, a) && !Comparable(c, a) ==> r == Err(NotComparable("<", c, if Below(b, a) then b else a))
    ensures r.Ok? ==> r.value == a || r.value == b || r.value == c
    ensures r.Ok? ==> !Below(a, r.value) && !Below(b, r.value) && !Below(c, r.value)
    ensures r.Ok? && !Below(b, a) && !Below(c, a) ==> r.value == a
  {
    LessIsStrictOrder(b, a, c);
    match Less(b, a)
    case Err(e) => Err(e)
    case Ok(bSmaller) =>
      var m := if bSmaller then b else a;
      LessIsStrictOrder(a, c, m);
      LessIsStrictOrder(b, c, m);
      LessIsStrictOrder(c, m, a);
      LessIsStrictOrder(a, b, c);
      match Less(c, m)
      case Err(e) => Err(e)
      case Ok(cSmaller) => Ok(if cSmaller then c else m)
  }

  /** `a <= 1 or b <= 1`, `b` only consulted when `a <= 1` fails. */
  function EitherAtMostOne(a: PyValue, b: PyValue): (r: Result<bool, PyError>)
    ensures IsNumber(a) && IsNumber(b) ==> r == Ok(NumberValue(a) <= 1 || NumberValue(b) <= 1)
    ensures !IsNumber(a) ==> r.Err?
  {
    match AtMost(a, 1)
    case Err(e) => Err(e)
    case Ok(low) => if low then Ok(true) else AtMost(b, 1)
  }

  /**
   * The pattern rung: `min_pattern <= 1` gives PATTERN, then `== 2` gives
   * STRENGTH and anything else POWER; the first comparison raises on a
   * minimum that is not a number.
   */
  function PatternStatus(minPattern: PyValue): (r: Result<Status, PyError>)
    ensures r.Ok? <==> IsNumber(minPattern)
    ensures r.Err? ==> r.error == NotComparable("<=", minPattern, PyInt(1))
    ensures r.Ok? ==> r.value in {Pattern, Strength, Power}
    ensures r.Ok? ==> (r.value == Pattern <==> NumberValue(minPattern) <= 1)
    ensures r.Ok? ==> (r.value == Strength <==> NumberValue(minPattern) == 2)
  {
    match AtMost(minPattern, 1)
    case Err(e) => Err(e)
    case Ok(low) =>
      if low then Ok(Pattern)
      else if EqualsInt(minPattern, 2) then Ok(Strength)
      else Ok(Power)
  }

  /** The rungs below STOP, tried in order: mobility, stability, then the pattern tests. */
  function Ladder(scores: Dict<PyValue>): (r: Result<Status, PyError>)
    ensures r.Ok? ==> r.value != Stop
  {
    match EitherAtMostOne(ScoreOf(scores, "active_straight_leg_raise"), ScoreOf(scores, "shoulder_mobility"))
    case Err(e) => Err(e)
    case Ok(mobility) =>
      if mobility then Ok(Mobility)
      else
        match EitherAtMostOne(ScoreOf(scores, "rotary_stability"), ScoreOf(scores, "trunk_stability_pushup"))
        case Err(e) => Err(e)
        case Ok(stability) =>
          if stability then Ok(Stability)
          else
            match Min3(ScoreOf(scores, "hurdle_step"), ScoreOf(scores, "inline_lunge"), ScoreOf(scores, "overhead_squat"))
            case Err(e) => Err(e)
            case Ok(minPattern) => PatternStatus(minPattern)
  }

  /** The traffic light: STOP on any zero, otherwise the first rung of the ladder that applies. */
  function TrafficLight(scores: Dict<PyValue>): (r: Result<Analysis, PyError>)
    ensures r.Ok? ==> r.value.effectiveScores == scores && r.value.targetLevel in {0, 1, 3, 5, 7, 9}
    ensures r.Ok? ==> r.value.targetLevel == TargetLevel(r.value.status) && r.value.reason == Reason(r.value.status)
    ensures (r.Ok? && r.value.status == Stop) <==> AnyZero(scores)
  {
    if AnyZero(scores) then Ok(Verdict(Stop, scores))
    else
      match Ladder(scores)
      case Err(e) => Err(e)
      case Ok(status) => Ok(Verdict(status, scores))
  }

  predicate NumericAt(scores: Dict<PyValue>, k: string)
  {
    IsNumber(ScoreOf(scores, k))
  }

  function N(scores: Dict<PyValue>, k: string): int
    requires NumericAt(scores, k)
  {
    NumberValue(ScoreOf(scores, k))
  }

  predicate AllNumeric(scores: Dict<PyValue>)
  {
    && NumericAt(scores, "active_straight_leg_raise") && NumericAt(scores, "shoulder_mobility")
    && NumericAt(scores, "rotary_stability") && NumericAt(scores, "trunk_stability_pushup")
    && NumericAt(scores, "hurdle_step") && NumericAt(scores, "inline_lunge") && NumericAt(scores, "overhead_squat")
  }

  predicate MobilityLimited(scores: Dict<PyValue>)
    requires AllNumeric(scores)
  {
    N(scores, "active_straight_leg_raise") <= 1 || N(scores, "shoulder_mobility") <= 1
  }

  predicate StabilityLimited(scores: Dict<PyValue>)
    requires AllNumeric(scores)
  {
    N(scores, "rotary_stability") <= 1 || N(scores, "trunk_stability_pushup") <= 1
  }

  function PatternMin(scores: Dict<PyValue>): int
    requires AllNumeric(scores)
  {
    var h := N(scores, "hurdle_step");
    var l := N(scores, "inline_lunge");
    var o := N(scores, "overhead_squat");
    if h <= l && h <= o then h else if l <= o then l else o
  }

  /**
   * With numeric values for the seven tests the ladder never raises, and
   * each status holds exactly when its rung applies and no rung above it does.
   */
  lemma TrafficLightLadder(scores: Dict<PyValue>)
    requires !AnyZero(scores) && AllNumeric(scores)
    ensures var r := TrafficLight(scores);
            && r.Ok?
            && (r.value.status == Mobility <==> MobilityLimited(scores))
            && (r.value.status == Stability <==> !MobilityLimited(scores) && StabilityLimited(scores))
            && (r.value.status == Pattern <==> !MobilityLimited(scores) && !StabilityLimited(scores) && PatternMin(scores) <= 1)
            && (r.value.status == Strength <==> !MobilityLimited(scores) && !StabilityLimited(scores) && PatternMin(scores) == 2)
            && (r.value.status == Power <==> !MobilityLimited(scores) && !StabilityLimited(scores) && PatternMin(scores) >= 3)
  {
    LadderMeaning(scores);
  }

  /** The ladder below STOP on numeric scores: the first rung that applies. */
  lemma LadderMeaning(scores: Dict<PyValue>)
    requires AllNumeric(scores)
    ensures var r := Ladder(scores);
            && r.Ok?
            && (r.value == Mobility <==> MobilityLimited(scores))
            && (r.value == Stability <==> !MobilityLimited(scores) && StabilityLimited(scores))
            && (r.value == Pattern <==> !MobilityLimited(scores) && !StabilityLimited(scores) && PatternMin(scores) <= 1)
            && (r.value == Strength <==> !MobilityLimited(scores) && !StabilityLimited(scores) && PatternMin(scores) == 2)
            && (r.value == Power <==> !MobilityLimited(scores) && !StabilityLimited(scores) && PatternMin(scores) >= 3)
  {
    if !MobilityLimited(scores) && !StabilityLimited(scores) {
      var m := Min3(ScoreOf(scores, "hurdle_step"), ScoreOf(scores, "inline_lunge"), ScoreOf(scores, "overhead_squat"));
      assert NumberValue(m.value) == PatternMin(scores);
    }
  }

  /**
   * Pattern scores given as text (manual scores such as "2", "3" and "1")
   * pass `min`, which orders strings, and then raise at `min_pattern <= 1`.
   */
  lemma TextPatternScoresRaise(scores: Dict<PyValue>)
    requires NumericAt(scores, "active_straight_leg_raise") && N(scores, "active_straight_leg_raise") > 1
    requires NumericAt(scores, "shoulder_mobility") && N(scores, "shoulder_mobility") > 1
    requires NumericAt(scores, "rotary_stability") && N(scores, "rotary_stability") > 1
    requires NumericAt(scores, "trunk_stability_pushup") && N(scores, "trunk_stability_pushup") > 1
    requires ScoreOf(scores, "hurdle_step").PyStr? && ScoreOf(scores, "inline_lunge").PyStr?
    requires ScoreOf(scores, "overhead_squat").PyStr?
    ensures var m := Min3(ScoreOf(scores, "hurdle_step"), ScoreOf(scores, "inline_lunge"), ScoreOf(scores, "overhead_squat"));
            && m.Ok? && TypeName(m.value) == "str"
            && Ladder(scores) == Err(NotComparable("<=", m.value, PyInt(1)))
  {
  }

  /** `analyze_fms_profile` as a function of the profile. */
  function Analyze(profile: Dict<PyValue>, useManualScores: bool): Result<Analysis, PyError>
  {
    match EffectiveScores(profile, useManualScores)
    case Err(e) => Err(e)
    case Ok(scores) => TrafficLight(scores)
  }

  /** One step of the main loop, unfolded once. */
  lemma EffectiveScoresFromStep(rest: Dict<PyValue>, acc: Dict<PyValue>, useManualScores: bool)
    requires rest != []
    ensures rest[0].0 == ManualFlag ==>
      EffectiveScoresFrom(rest, acc, useManualScores) == EffectiveScoresFrom(rest[1..], acc, useManualScores)
    ensures rest[0].0 != ManualFlag && EffectiveScore(rest[0].0, rest[0].1, useManualScores).Err? ==>
      EffectiveScoresFrom(rest, acc, useManualScores) == Err(EffectiveScore(rest[0].0, rest[0].1, useManualScores).error)
    ensures rest[0].0 != ManualFlag && EffectiveScore(rest[0].0, rest[0].1, useManualScores).Ok? ==>
      EffectiveScoresFrom(rest, acc, useManualScores)
        == EffectiveScoresFrom(rest[1..], Put(acc, rest[0].0, EffectiveScore(rest[0].0, rest[0].1, useManualScores).value), useManualScores)
  {
  }

  /**
   * The `has_sub_inputs` scan of one test entry: sums each dict-valued
   * field in order and breaks at the first positive sum.
   */
  method ScanSubInputs(fields: Dict<PyValue>) returns (r: Result<bool, PyError>)
    ensures r == HasSubInputs(fields)
  {
    var j := 0;
    while j < |fields|
      invariant 0 <= j <= |fields|
      invariant HasSubInputs(fields) == HasSubInputs(fields[j..])
    {
      var v := fields[j].1;
      assert fields[j..][1..] == fields[j + 1..];
      if v.PyDict? {
        var total := SumValues(v.entries);
        if total.Err? {
          return Err(total.error);
        }
        if total.value > 0 {
          return Ok(true);
        }
      }
      j := j + 1;
    }
    return Ok(false);
  }

  /**
   * The body of the main loop for one test: AttributeError unless the entry
   * is a dict, then the manual score or the calculated one.
   */
  method SelectScore(testName: string, testData: PyValue, useManualScores: bool) returns (r: Result<PyValue, PyError>)
    ensures r == EffectiveScore(testName, testData, useManualScores)
  {
    if !testData.PyDict? {
      return Err(NoAttribute(testData, "items"));
    }
    var fields := testData.entries;
    var hasSubInputs := ScanSubInputs(fields);
    if hasSubInputs.Err? {
      return Err(hasSubInputs.error);
    }
    if useManualScores || !hasSubInputs.value {
      return Ok(Get(fields, "score", PyInt(2)));
    }
    var calculated := CalculateScoreFromFaults(testName, fields);
    if calculated.Err? {
      return Err(calculated.error);
    }
    return Ok(PyInt(calculated.value));
  }

  /**
   * `analyze_fms_profile`: the loop over the profile fills `effective_scores`
   * in place, one test at a time, skipping the manual-scores flag, and then
   * runs the traffic light.
   */
  method AnalyzeFmsProfile(profile: Dict<PyValue>, useManualScores: bool) returns (r: Result<Analysis, PyError>)
    ensures r == Analyze(profile, useManualScores)
  {
    var effectiveScores := CollectScores(profile, useManualScores);
    if effectiveScores.Err? {
      return Err(effectiveScores.error);
    }
    r := TrafficLight(effectiveScores.value);
  }

  /** The loop of `analyze_fms_profile` that fills `effective_scores`. */
  method CollectScores(profile: Dict<PyValue>, useManualScores: bool) returns (r: Result<Dict<PyValue>, PyError>)
    ensures r == EffectiveScores(profile, useManualScores)
  {
    var effectiveScores: Dict<PyValue> := [];
    var i := 0;
    while i < |profile|
      invariant 0 <= i <= |profile|
      invariant EffectiveScores(profile, useManualScores) == EffectiveScoresFrom(profile[i..], effectiveScores, useManualScores)
    {
      var testName := profile[i].0;
      ghost var rest := profile[i..];
      assert rest[0] == profile[i] && rest[1..] == profile[i + 1..];
      EffectiveScoresFromStep(rest, effectiveScores, useManualScores);
      if testName != ManualFlag {
        var score := SelectScore(testName, profile[i].1, useManualScores);
        if score.Err? {
          return Err(score.error);
        }
        effectiveScores := Put(effectiveScores, testName, score.value);
      }
      i := i + 1;
    }
    assert profile[i..] == [];
    return Ok(effectiveScores);
  }
}
