/**
 * The read-only workout report (src/components/WorkoutDetail.jsx).  On
 * mount, and whenever the route parameters change, the screen fetches all
 * of the student's workouts and keeps the first one whose `assessment_id`
 * or `id` strictly equals `parseInt(assessmentId, 10)`.  The fetch is a
 * parameter: its settled outcome is given to the method that models the
 * promise chain.
 *
 * The React state (`workout`, `loading`, `error`) is a class; the lookup,
 * the colour classes and the per-exercise `rx` fallback are functions.
 */
module WorkoutDetail {
  import opened Outcomes
  import opened Dicts
  import opened Text
  import opened Js

  // ------------------------------------------------------------ the lookup

  /** `w.assessment_id === targetId || w.id === targetId` for a non-nullish workout. */
  predicate Matches(w: JsValue, target: JsValue)
  {
    StrictEqualsNumber(Prop(w, "assessment_id"), target) || StrictEqualsNumber(Prop(w, "id"), target)
  }

  /**
   * `items.find(w => w.assessment_id === targetId || w.id === targetId)`:
   * the first match, none, or the TypeError of reading `assessment_id` of an
   * undefined or null element reached before any match.
   */
  function Find(items: seq<JsValue>, target: JsValue): (r: Result<Option<JsValue>, JsValue>)
    decreases |items|
  {
    if items == [] then Ok(None)
    else if Nullish(items[0]) then Err(ReadError(items[0], "assessment_id"))
    else if Matches(items[0], target) then Ok(Some(items[0]))
    else Find(items[1..], target)
  }

  /** None of the first `i` workouts is nullish or matches. */
  predicate Passed(items: seq<JsValue>, target: JsValue, i: nat)
    requires i <= |items|
  {
    forall j :: 0 <= j < i ==> !Nullish(items[j]) && !Matches(items[j], target)
  }

  lemma {:induction false} FindFirstMatch(items: seq<JsValue>, target: JsValue, i: nat)
    requires i < |items| && Passed(items, target, i)
    requires !Nullish(items[i]) && Matches(items[i], target)
    ensures Find(items, target) == Ok(Some(items[i]))
    decreases i
  {
    if i > 0 {
      assert Passed(items[1..], target, i - 1) by {
        forall j | 0 <= j < i - 1 ensures !Nullish(items[1..][j]) && !Matches(items[1..][j], target) {
          assert items[1..][j] == items[j + 1];
        }
      }
      FindFirstMatch(items[1..], target, i - 1);
    }
  }

  lemma {:induction false} FindNoMatch(items: seq<JsValue>, target: JsValue)
    requires Passed(items, target, |items|)
    ensures Find(items, target) == Ok(None)
    decreases |items|
  {
    if items != [] {
      assert Passed(items[1..], target, |items| - 1) by {
        forall j | 0 <= j < |items| - 1 ensures !Nullish(items[1..][j]) && !Matches(items[1..][j], target) {
          assert items[1..][j] == items[j + 1];
        }
      }
      FindNoMatch(items[1..], target);
    }
  }

  lemma {:induction false} FindThrows(items: seq<JsValue>, target: JsValue, i: nat)
    requires i < |items| && Passed(items, target, i) && Nullish(items[i])
    ensures Find(items, target) == Err(ReadError(items[i], "assessment_id"))
    decreases i
  {
    if i > 0 {
      assert Passed(items[1..], target, i - 1) by {
        forall j | 0 <= j < i - 1 ensures !Nullish(items[1..][j]) && !Matches(items[1..][j], target) {
          assert items[1..][j] == items[j + 1];
        }
      }
      FindThrows(items[1..], target, i - 1);
    }
  }

  /** The TypeError of calling `find` on a truthy value that is not an array. */
  const NotAFunction := ErrorValue("(data || []).find is not a function")

  /** `parseInt(assessmentId, 10)`, then the search over `data || []`. */
  function LookupWorkout(data: JsValue, assessmentId: JsValue): Result<Option<JsValue>, JsValue>
  {
    var list := Or(data, Arr([]));
    if !list.Arr? then Err(NotAFunction) else Find(list.items, ParseInt(assessmentId, Decimal))
  }

  /** An undefined or null reply is an empty list: no workout is found and nothing throws. */
  lemma NullishDataFindsNothing(data: JsValue, assessmentId: JsValue)
    requires Nullish(data)
    ensures LookupWorkout(data, assessmentId) == Ok(None)
  {
  }

  /** A workout whose `assessment_id` is the number a link printed is found. */
  lemma LinkedWorkoutFound(items: seq<JsValue>, i: nat, n: int)
    requires i < |items| && Passed(items, Int(n), i)
    requires !Nullish(items[i]) && Prop(items[i], "assessment_id") == Int(n)
    ensures LookupWorkout(Arr(items), Str(ToString(Int(n)))) == Ok(Some(items[i]))
  {
    ParseIntPrintsBack(n, Decimal);
    assert ParseInt(Str(ToString(Int(n))), Decimal) == ParseInt(Int(n), Decimal);
    FindFirstMatch(items, Int(n), i);
  }

  /** A parameter that does not parse gives NaN, which equals nothing: nothing is found. */
  lemma NaNTargetFindsNothing(items: seq<JsValue>)
    requires forall j :: 0 <= j < |items| ==> !Nullish(items[j])
    ensures Find(items, NaN) == Ok(None)
  {
    FindNoMatch(items, NaN);
  }

  // ---------------------------------------------------------- the screen

  const NotFoundMessage := "Workout not found for this assessment."
  const LoadFailedMessage := "Could not load workouts."

  /** How `getStudentWorkouts(id)` settled. */
  datatype WorkoutsReply = Resolved(data: JsValue) | Rejected(reason: JsValue)

  /** What the screen renders. */
  datatype View = Loading | Unavailable(message: string) | Report(workout: JsValue)

  /** `if (loading) …; if (error || !workout) … {error || "Data unavailable"} …`. */
  function Render(loading: bool, error: Option<string>, workout: JsValue): (v: View)
    ensures v.Loading? <==> loading
    ensures v.Report? <==> !loading && (error == None || error.value == []) && Truthy(workout)
    ensures v.Unavailable? ==> v.message == if error.Some? && error.value != [] then error.value else "Data unavailable"
  {
    if loading then Loading
    else if error.Some? && error.value != [] then Unavailable(error.value)
    else if !Truthy(workout) then Unavailable("Data unavailable")
    else Report(workout)
  }

  class WorkoutDetailScreen {
    var workout: JsValue
    var loading: bool
    var error: Option<string>

    function View(): View
      reads this
    {
      Render(loading, error, workout)
    }

    /** `useState(null)`, `useState(true)`, `useState(null)`. */
    constructor()
      ensures workout == Null && loading && error == None
      ensures View() == Loading
    {
      workout := Null;
      loading := true;
      error := None;
    }

    /**
     * The effect's promise chain once the fetch settles: `then` keeps the
     * found workout or sets the not-found message, `catch` (a rejected fetch
     * or an error thrown in `then`) sets the load-failure message, and
     * `finally` ends loading.  Nothing is reset when the effect re-runs.
     */
    method Settle(assessmentId: JsValue, reply: WorkoutsReply)
      modifies this
      ensures !loading
      ensures reply.Resolved? && LookupWorkout(reply.data, assessmentId) == Ok(None) ==>
        error == Some(NotFoundMessage) && workout == old(workout)
      ensures reply.Resolved? && LookupWorkout(reply.data, assessmentId).Ok? && LookupWorkout(reply.data, assessmentId).value.Some? ==>
        workout == LookupWorkout(reply.data, assessmentId).value.value && error == old(error)
      ensures reply.Rejected? || LookupWorkout(reply.data, assessmentId).Err? ==>
        error == Some(LoadFailedMessage) && workout == old(workout)
    {
      if reply.Rejected? {
        error := Some(LoadFailedMessage);
      } else {
        var found := LookupWorkout(reply.data, assessmentId);
        if found.Err? {
          error := Some(LoadFailedMessage);
        } else if found.value.Some? {
          workout := found.value.value;
        } else {
          error := Some(NotFoundMessage);
        }
      }
      loading := false;
    }
  }

  /** On first load a found workout is shown exactly when it is truthy, which every object is. */
  lemma FirstLoadShowsReport(w: JsValue)
    requires w.Obj?
    ensures Render(false, None, w) == Report(w)
  {
  }

  /** An error set by an earlier run of the effect stays on screen after a later lookup succeeds. */
  lemma ErrorIsSticky(message: string, w: JsValue)
    requires message != []
    ensures Render(false, Some(message), w) == Unavailable(message)
  {
  }

  // ------------------------------------------------------ colours and rx

  const GreenClasses := "text-emerald-400 bg-emerald-400/10 border-emerald-400/20"
  const YellowClasses := "text-amber-400 bg-amber-400/10 border-amber-400/20"
  const RedClasses := "text-rose-400 bg-rose-400/10 border-rose-400/20"

  /** The `map` object of `getDifficultyColor`, read with a property key. */
  function ColorTable(key: string): Option<string>
  {
    if key == "green" then Some(GreenClasses)
    else if key == "yellow" then Some(YellowClasses)
    else if key == "red" then Some(RedClasses)
    else None
  }

  /** `getDifficultyColor(color)` as written: `map[color] || map.green`. */
  function DifficultyClasses(color: JsValue): (r: string)
    ensures ColorTable(ToString(color)).Some? ==> r == ColorTable(ToString(color)).value
    ensures ColorTable(ToString(color)).None? ==> r == GreenClasses
  {
    match ColorTable(ToString(color))
    case Some(classes) => classes
    case None => GreenClasses
  }

  /** The plans the back end sends are coloured "Red", "Yellow" or "Green", which the table does not know. */
  lemma CapitalisedColorsShowGreen()
    ensures DifficultyClasses(Str("Red")) == GreenClasses
    ensures DifficultyClasses(Str("Yellow")) == GreenClasses
    ensures DifficultyClasses(Str("Green")) == GreenClasses
  {
    assert ToString(Str("Red")) == "Red";
    assert ToString(Str("Yellow")) == "Yellow";
  }

  /** The colour lookup with the key lower-cased, so the back end's capitalised colours are found. */
  function DifficultyClassesIgnoringCase(color: JsValue): (r: string)
    ensures ColorTable(Lower(ToString(color))).Some? ==> r == ColorTable(Lower(ToString(color))).value
    ensures ColorTable(Lower(ToString(color))).None? ==> r == GreenClasses
  {
    match ColorTable(Lower(ToString(color)))
    case Some(classes) => classes
    case None => GreenClasses
  }

  /** With the key lower-cased, each colour the back end sends gets its own classes. */
  lemma BackendRedClassified()
    ensures DifficultyClassesIgnoringCase(Str("Red")) == RedClasses
  {
    assert Lower("Red") == "red";
  }

  lemma BackendYellowClassified()
    ensures DifficultyClassesIgnoringCase(Str("Yellow")) == YellowClasses
  {
    assert Lower("Yellow") == "yellow";
  }

  lemma BackendGreenClassified()
    ensures DifficultyClassesIgnoringCase(Str("Green")) == GreenClasses
  {
    assert Lower("Green") == "green";
  }

  /** The lower-cased lookup agrees with the written one on every key already in lower case. */
  lemma IgnoringCaseAgrees(color: JsValue)
    requires Lower(ToString(color)) == ToString(color)
    ensures DifficultyClassesIgnoringCase(color) == DifficultyClasses(color)
  {
  }

  /**
   * `{...exercise, rx: exercise.sets_reps || exercise.rx}` inside
   * `workout.exercises?.map`: reading a property of an undefined or null
   * exercise throws.
   */
  function ExerciseCard(exercise: JsValue): (r: Result<JsValue, JsValue>)
    ensures r.Err? <==> Nullish(exercise)
  {
    if Nullish(exercise) then Err(ReadError(exercise, "sets_reps"))
    else Ok(Obj(Put(Spread(exercise), "rx", Or(Prop(exercise, "sets_reps"), Prop(exercise, "rx")))))
  }

  /** The card's `rx` is `sets_reps` when that is truthy and the exercise's own `rx` otherwise; every other field is the exercise's. */
  lemma RxFallback(exercise: JsValue, k: string)
    requires !Nullish(exercise)
    ensures Truthy(Prop(exercise, "sets_reps")) ==> Prop(ExerciseCard(exercise).value, "rx") == Prop(exercise, "sets_reps")
    ensures !Truthy(Prop(exercise, "sets_reps")) ==> Prop(ExerciseCard(exercise).value, "rx") == Prop(exercise, "rx")
    ensures k != "rx" ==> Prop(ExerciseCard(exercise).value, k) == Prop(exercise, k)
  {
    var card := Put(Spread(exercise), "rx", Or(Prop(exercise, "sets_reps"), Prop(exercise, "rx")));
    assert Lookup(card, "rx") == Some(Or(Prop(exercise, "sets_reps"), Prop(exercise, "rx")));
    if k != "rx" {
      assert Lookup(card, k) == Lookup(Spread(exercise), k);
    }
  }
}
