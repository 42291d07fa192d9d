/**
 * The progress history list (src/components/ProgressHistory.jsx).  The
 * screen fetches a student's assessments, sorts them in place, newest
 * first, by `generated_at || created_at || 0`, and lists them with a link
 * to each one's workout report.
 *
 * `new Date(x)` is a parameter `time` from a date value to its timestamp
 * (a number is already a timestamp); invalid dates (NaN) are not modelled.
 * The locale formatting of `toLocaleDateString` / `toLocaleTimeString` is
 * likewise a parameter.
 */
module ProgressHistory {
  import opened Outcomes
  import opened Dicts
  import opened Text
  import opened Js
  import WorkoutDetail

  // ----------------------------------------------------------- the sort key

  /** `a.generated_at || a.created_at || 0`; properties of undefined and null read as undefined here, the throw is modelled by the caller. */
  function DateKey(v: JsValue): JsValue
  {
    Or(Or(Prop(v, "generated_at"), Prop(v, "created_at")), Int(0))
  }

  /** `new Date(key)` as a timestamp. */
  function Timestamp(time: JsValue -> int, v: JsValue): int
  {
    var key := DateKey(v);
    if key.Int? then key.i else time(key)
  }

  /** Newest first: the comparator `dateB - dateA` has put no older entry before a newer one. */
  predicate Descending(time: JsValue -> int, s: seq<JsValue>)
  {
    forall i, j :: 0 <= i < j < |s| ==> Timestamp(time, s[i]) >= Timestamp(time, s[j])
  }

  /** An entry with neither date sorts as the epoch. */
  lemma UndatedIsEpoch(time: JsValue -> int, v: JsValue)
    requires !Truthy(Prop(v, "generated_at")) && !Truthy(Prop(v, "created_at"))
    ensures Timestamp(time, v) == 0
  {
  }

  /** `generated_at` wins over `created_at` whenever it is set. */
  lemma GeneratedAtFirst(time: JsValue -> int, v: JsValue)
    requires Truthy(Prop(v, "generated_at")) && !Prop(v, "generated_at").Int?
    ensures Timestamp(time, v) == time(Prop(v, "generated_at"))
  {
  }

  // ------------------------------------------------------- the in-place sort

  /** Swapping two neighbours keeps the elements. */
  method SwapDown(a: array<JsValue>, j: nat)
    requires 0 < j < a.Length
    modifies a
    ensures a[j - 1] == old(a[j]) && a[j] == old(a[j - 1])
    ensures forall m :: 0 <= m < a.Length && m != j - 1 && m != j ==> a[m] == old(a[m])
    ensures multiset(a[..]) == old(multiset(a[..]))
  {
    a[j - 1], a[j] := a[j], a[j - 1];
  }

  /** The first `n` entries of the array are in descending order of `key`. */
  predicate SortedPrefix(key: JsValue -> int, a: array<JsValue>, n: nat)
    requires n <= a.Length
    reads a
  {
    forall k, l :: 0 <= k < l < n ==> key(a[k]) >= key(a[l])
  }

  /** Moves `a[i]` left past every neighbour with a smaller key, into the sorted prefix `a[..i]`. */
  method InsertNewest(a: array<JsValue>, i: nat, key: JsValue -> int)
    requires i < a.Length && SortedPrefix(key, a, i)
    modifies a
    ensures SortedPrefix(key, a, i + 1)
    ensures forall m :: i < m < a.Length ==> a[m] == old(a[m])
    ensures multiset(a[..]) == old(multiset(a[..]))
  {
    var j := i;
    while j > 0 && key(a[j - 1]) < key(a[j])
      invariant 0 <= j <= i
      invariant forall k, l :: 0 <= k < l <= i && k != j && l != j ==> key(a[k]) >= key(a[l])
      invariant forall l :: j < l <= i ==> key(a[j]) > key(a[l])
      invariant forall m :: i < m < a.Length ==> a[m] == old(a[m])
      invariant multiset(a[..]) == old(multiset(a[..]))
    {
      SwapDown(a, j);
      j := j - 1;
    }
  }

  /** `.sort((a, b) => dateB - dateA)` on entries that are all dated: newest first, the same entries. */
  method SortNewestFirst(a: array<JsValue>, time: JsValue -> int)
    modifies a
    ensures Descending(time, a[..])
    ensures multiset(a[..]) == old(multiset(a[..]))
  {
    var key := v => Timestamp(time, v);
    for i := 0 to a.Length
      invariant SortedPrefix(key, a, i)
      invariant multiset(a[..]) == old(multiset(a[..]))
    {
      InsertNewest(a, i, key);
    }
    assert forall k :: 0 <= k < a.Length ==> a[..][k] == a[k];
  }

  // ------------------------------------------------------- undefined entries

  /** The entries other than `undefined`, which `sort` hands to the comparator. */
  function Compared(s: seq<JsValue>): (r: seq<JsValue>)
    ensures |r| <= |s|
    ensures forall k :: 0 <= k < |r| ==> !r[k].Undefined?
  {
    if s == [] then [] else (if s[0].Undefined? then [] else [s[0]]) + Compared(s[1..])
  }

  /** The `undefined` entries, which `sort` moves to the end without comparing. */
  function Trailing(s: seq<JsValue>): (r: seq<JsValue>)
    ensures forall k :: 0 <= k < |r| ==> r[k] == Undefined
  {
    if s == [] then [] else (if s[0].Undefined? then [s[0]] else []) + Trailing(s[1..])
  }

  lemma {:induction false} PartitionKeepsEntries(s: seq<JsValue>)
    ensures multiset(Compared(s)) + multiset(Trailing(s)) == multiset(s)
  {
    if s != [] {
      var rest := s[1..];
      PartitionKeepsEntries(rest);
      assert s == [s[0]] + rest;
    }
  }

  /** The comparator reads a property of every compared entry, so a null among at least two throws. */
  predicate SortThrows(s: seq<JsValue>)
  {
    |Compared(s)| >= 2 && Null in Compared(s)
  }

  // ----------------------------------------------------------- the screen

  const LoadFailedMessage := "Could not load history."

  datatype AssessmentsReply = Resolved(data: JsValue) | Rejected(reason: JsValue)

  /** `(data || [])`, or nothing when that is not an array (then `sort` is not a function). */
  function Listed(data: JsValue): Option<seq<JsValue>>
  {
    var list := Or(data, Arr([]));
    if list.Arr? then Some(list.items) else None
  }

  lemma NullishIsEmpty(data: JsValue)
    requires Nullish(data)
    ensures Listed(data) == Some([])
  {
  }

  class HistoryScreen {
    const time: JsValue -> int
    var assessments: seq<JsValue>
    var loading: bool
    var error: Option<string>

    /** `useState([])`, `useState(true)`, `useState(null)`. */
    constructor(time: JsValue -> int)
      ensures this.time == time
      ensures assessments == [] && loading && error == None
    {
      this.time := time;
      assessments := [];
      loading := true;
      error := None;
    }

    /**
     * The effect once `getAssessments(id)` settles: the sorted list is
     * stored, or, when the fetch rejects or sorting throws, the load-failure
     * message is set; loading ends either way.
     */
    method Settle(reply: AssessmentsReply)
      modifies this
      ensures !loading
      ensures reply.Rejected? || Listed(reply.data).None? || SortThrows(Listed(reply.data).value) ==>
        error == Some(LoadFailedMessage) && assessments == old(assessments)
      ensures reply.Resolved? && Listed(reply.data).Some? && !SortThrows(Listed(reply.data).value) ==>
        && error == old(error)
        && multiset(assessments) == multiset(Listed(reply.data).value)
        && |assessments| == |Listed(reply.data).value|
        && Descending(time, assessments[..|Compared(Listed(reply.data).value)|])
        && assessments[|Compared(Listed(reply.data).value)|..] == Trailing(Listed(reply.data).value)
    {
      if reply.Rejected? || Listed(reply.data).None? {
        error := Some(LoadFailedMessage);
      } else {
        var items := Listed(reply.data).value;
        if SortThrows(items) {
          error := Some(LoadFailedMessage);
        } else {
          var compared := Compared(items);
          var a := new JsValue[|compared|](k requires 0 <= k < |compared| => compared[k]);
          assert a[..] == compared;
          SortNewestFirst(a, time);
          assessments := a[..] + Trailing(items);
          PartitionKeepsEntries(items);
          assert assessments[..|compared|] == a[..];
        }
      }
      loading := false;
    }
  }

  // ------------------------------------------------------------- the rows

  /** `formatDate` / `formatTime`: "N/A" for a falsy value, else the locale text. */
  function Formatted(format: JsValue -> string, v: JsValue): (r: string)
    ensures !Truthy(v) ==> r == "N/A"
    ensures Truthy(v) ==> r == format(v)
  {
    if !Truthy(v) then "N/A" else format(v)
  }

  /** What one row of the list shows and where it leads. */
  datatype Row = Row(number: int, heading: string, link: string, date: string, clock: string)

  /** `String(s).substring(0, 6)`. */
  function Prefix6(s: string): (r: string)
    ensures |r| == if |s| < 6 then |s| else 6
    ensures r == s[..|r|]
  {
    if |s| < 6 then s else s[..6]
  }

  /** The row of entry `i`, or the TypeError of reading `item.id` of an undefined or null entry. */
  function ItemRow(studentId: string, item: JsValue, i: nat, date: JsValue -> string, clock: JsValue -> string): (r: Result<Row, JsValue>)
    ensures r.Err? <==> Nullish(item)
  {
    if Nullish(item) then Err(ReadError(item, "id"))
    else
      var id := ToString(Prop(item, "id"));
      var when := Or(Prop(item, "generated_at"), Prop(item, "created_at"));
      Ok(Row(i + 1, "Assessment #" + Prefix6(id), "/coach/student/" + studentId + "/workout/" + id,
             Formatted(date, when), Formatted(clock, when)))
  }

  /** A row's link ends with the entry's id and its label is "Assessment #" and the id's first six characters. */
  lemma RowShape(studentId: string, item: JsValue, i: nat, date: JsValue -> string, clock: JsValue -> string)
    requires !Nullish(item)
    ensures ItemRow(studentId, item, i, date, clock).value.link
      == "/coach/student/" + studentId + "/workout/" + ToString(Prop(item, "id"))
    ensures var heading := ItemRow(studentId, item, i, date, clock).value.heading;
      && heading[..12] == "Assessment #"
      && heading[12..] == ToString(Prop(item, "id"))[..|heading| - 12]
      && |heading| <= 18
  {
    var id := ToString(Prop(item, "id"));
    var heading := "Assessment #" + Prefix6(id);
    assert heading[..12] == "Assessment #";
    assert heading[12..] == Prefix6(id);
  }

  /**
   * The id a row links to is the one the workout report searches for: the
   * report parses the last path segment back to the entry's numeric id and
   * finds the workout recorded for that assessment.
   */
  lemma LinkReachesWorkout(item: JsValue, workouts: seq<JsValue>, w: nat, n: int)
    requires !Nullish(item) && Prop(item, "id") == Int(n)
    requires w < |workouts| && WorkoutDetail.Passed(workouts, Int(n), w)
    requires !Nullish(workouts[w]) && Prop(workouts[w], "assessment_id") == Int(n)
    ensures WorkoutDetail.LookupWorkout(Arr(workouts), Str(ToString(Prop(item, "id")))) == Ok(Some(workouts[w]))
  {
    WorkoutDetail.LinkedWorkoutFound(workouts, w, n);
  }
}
