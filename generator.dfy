/**
 * The deterministic parts of the workout generator: the severe-fault
 * summary handed to the model (`format_faults_for_prompt`) and the guards,
 * sorting, prompt assembly and fallbacks around the model call in
 * `generate_workout_plan`.  The model itself (prompt template, chat model,
 * JSON parser) is the parameter `llm`: it sees the five prompt variables and
 * either returns a parsed JSON object or fails with an exception message.
 */
module Generator {
  import opened Outcomes
  import opened Dicts
  import opened Text
  import opened Py

  // ---------------------------------------------------------------------
  // format_faults_for_prompt
  // ---------------------------------------------------------------------

  /** `isinstance(severity, (int, float)) and severity >= 3` (bool counts as int). */
  predicate Severe(v: PyValue)
  {
    IsNumber(v) && NumberValue(v) >= 3
  }

  /** The interpretation suffix: the first of the three substrings the fault name contains. */
  function Interpretation(faultName: string): string
  {
    if Contains(faultName, "heels_lift") then "-> ankle restriction suspected"
    else if Contains(faultName, "knee_valgus") then "-> glute weakness / motor control"
    else if Contains(faultName, "forward_lean") then "-> thoracic/core weakness"
    else ""
  }

  /** The `pain_reported` branch is the last `elif`, so only a name without the other three substrings reaches it. */
  predicate MarksPain(faultName: string)
  {
    && !Contains(faultName, "heels_lift") && !Contains(faultName, "knee_valgus")
    && !Contains(faultName, "forward_lean") && Contains(faultName, "pain_reported")
  }

  /** `name.replace('_', ' ').title()`. */
  function CleanName(name: string): string
  {
    Title(ReplaceChar(name, '_', ' '))
  }

  function FaultLine(faultName: string, severity: PyValue): string
  {
    CleanName(faultName) + " (" + Str(severity) + "/4) " + Interpretation(faultName)
  }

  /** The rendering of each kept item, in order: the shape shared by the fault lines and the test blocks. */
  function Listing<T>(xs: seq<T>, keep: T -> bool, render: T -> string): seq<string>
  {
    if xs == [] then []
    else
      var n := |xs| - 1;
      Listing(xs[..n], keep, render) + (if keep(xs[n]) then [render(xs[n])] else [])
  }

  /** A listing holds exactly the renderings of the kept items, and is empty exactly when nothing is kept. */
  lemma {:induction false} ListingMeaning<T>(xs: seq<T>, keep: T -> bool, render: T -> string)
    ensures forall j :: 0 <= j < |xs| && keep(xs[j]) ==> render(xs[j]) in Listing(xs, keep, render)
    ensures forall l :: l in Listing(xs, keep, render) ==> exists j :: 0 <= j < |xs| && keep(xs[j]) && l == render(xs[j])
    ensures Listing(xs, keep, render) == [] <==> forall j :: 0 <= j < |xs| ==> !keep(xs[j])
  {
    if xs != [] {
      var n := |xs| - 1;
      ListingMeaning(xs[..n], keep, render);
      assert forall j :: 0 <= j < n ==> xs[..n][j] == xs[j];
    }
  }

  function IsSevereFault(fault: (string, PyValue)): bool { Severe(fault.1) }

  function RenderFault(fault: (string, PyValue)): string { FaultLine(fault.0, fault.1) }

  /** The lines one category contributes: one per severe fault, in order. */
  function CategoryLines(details: Dict<PyValue>): seq<string>
  {
    Listing(details, IsSevereFault, RenderFault)
  }

  /** Whether one category sets the pain flag. */
  predicate CategoryPain(details: Dict<PyValue>)
  {
    if details == [] then false
    else
      var n := |details| - 1;
      CategoryPain(details[..n]) || (Severe(details[n].1) && MarksPain(details[n].0))
  }

  /** The lines of one test: the lines of its dict-valued fields, in order. */
  function TestLines(testData: Dict<PyValue>): seq<string>
  {
    if testData == [] then []
    else
      var n := |testData| - 1;
      var details := testData[n].1;
      TestLines(testData[..n]) + (if details.PyDict? then CategoryLines(details.entries) else [])
  }

  predicate TestPain(testData: Dict<PyValue>)
  {
    if testData == [] then false
    else
      var n := |testData| - 1;
      TestPain(testData[..n]) || (testData[n].1.PyDict? && CategoryPain(testData[n].1.entries))
  }

  /** Entries that are not dicts, or have no `score`, are skipped. */
  predicate Listed(v: PyValue)
  {
    v.PyDict? && "score" in Keys(v.entries)
  }

  /** `**Test Name** (Score s/3):` followed by the test's lines as a bullet list. */
  function Block(testName: string, testData: Dict<PyValue>, lines: seq<string>): (r: string)
    ensures StartsWith(r, "**")
  {
    "**" + CleanName(testName) + "** (Score " + Str(Get(testData, "score", PyStr("?"))) + "/3):\n   - "
      + Join(lines, "\n   - ")
  }

  /** Whether a top-level entry produces a block. */
  predicate Reported(entry: (string, PyValue))
  {
    Listed(entry.1) && TestLines(entry.1.entries) != []
  }

  function BlockOf(entry: (string, PyValue)): string
  {
    if entry.1.PyDict? then Block(entry.0, entry.1.entries, TestLines(entry.1.entries)) else ""
  }

  /** One block per reported test, in order. */
  function Blocks(full: Dict<PyValue>): seq<string>
  {
    Listing(full, Reported, BlockOf)
  }

  predicate PainDetected(full: Dict<PyValue>)
  {
    if full == [] then false
    else
      var n := |full| - 1;
      PainDetected(full[..n]) || (Listed(full[n].1) && TestPain(full[n].1.entries))
  }

  // Written in two pieces so that the verifier sees their first characters.
  const PainBanner := "PAIN" + " DETECTED - STOP TRAINING. REFER TO MEDICAL PRO.\n"
  const NoFaults := "No" + " severe faults (>=3/4) detected."

  /** The string `format_faults_for_prompt` returns. */
  function FaultsText(full: Dict<PyValue>): string
  {
    var blocks := Blocks(full);
    if PainDetected(full) then PainBanner + Join(blocks, "\n")
    else if blocks != [] then Join(blocks, "\n\n")
    else NoFaults
  }

  /** Exactly the severe faults of a category are listed, each as its own line; none means no lines. */
  lemma CategoryLinesMeaning(details: Dict<PyValue>)
    ensures forall j :: 0 <= j < |details| && Severe(details[j].1) ==> FaultLine(details[j].0, details[j].1) in CategoryLines(details)
    ensures forall l :: l in CategoryLines(details) ==>
              exists j :: 0 <= j < |details| && Severe(details[j].1) && l == FaultLine(details[j].0, details[j].1)
    ensures CategoryLines(details) == [] <==> forall j :: 0 <= j < |details| ==> !Severe(details[j].1)
  {
    ListingMeaning(details, IsSevereFault, RenderFault);
  }

  lemma {:induction false} CategoryPainMeaning(details: Dict<PyValue>)
    ensures CategoryPain(details) <==> exists j :: 0 <= j < |details| && Severe(details[j].1) && MarksPain(details[j].0)
  {
    if details != [] {
      var n := |details| - 1;
      CategoryPainMeaning(details[..n]);
      assert forall j :: 0 <= j < n ==> details[..n][j] == details[j];
    }
  }

  /** A test has lines exactly when one of its dict-valued fields has a severe fault. */
  lemma {:induction false} TestLinesEmpty(testData: Dict<PyValue>)
    ensures TestLines(testData) == [] <==>
              forall c :: 0 <= c < |testData| && testData[c].1.PyDict? ==> CategoryLines(testData[c].1.entries) == []
  {
    if testData != [] {
      var n := |testData| - 1;
      TestLinesEmpty(testData[..n]);
      assert forall c :: 0 <= c < n ==> testData[..n][c] == testData[c];
    }
  }

  lemma {:induction false} TestPainMeaning(testData: Dict<PyValue>)
    ensures TestPain(testData) <==>
              exists c :: 0 <= c < |testData| && testData[c].1.PyDict? && CategoryPain(testData[c].1.entries)
  {
    if testData != [] {
      var n := |testData| - 1;
      TestPainMeaning(testData[..n]);
      assert forall c :: 0 <= c < n ==> testData[..n][c] == testData[c];
    }
  }

  /** Exactly the reported tests have a block, in input order. */
  lemma BlocksMeaning(full: Dict<PyValue>)
    ensures forall i :: 0 <= i < |full| && Reported(full[i]) ==> BlockOf(full[i]) in Blocks(full)
    ensures forall b :: b in Blocks(full) ==> exists i :: 0 <= i < |full| && Reported(full[i]) && b == BlockOf(full[i])
    ensures Blocks(full) == [] <==> forall i :: 0 <= i < |full| ==> !Reported(full[i])
  {
    ListingMeaning(full, Reported, BlockOf);
  }

  lemma {:induction false} PainDetectedMeaning(full: Dict<PyValue>)
    ensures PainDetected(full) <==> exists i :: 0 <= i < |full| && Listed(full[i].1) && TestPain(full[i].1.entries)
  {
    if full != [] {
      var n := |full| - 1;
      PainDetectedMeaning(full[..n]);
      assert forall i :: 0 <= i < n ==> full[..n][i] == full[i];
    }
  }

  /** Some listed test has a severe numeric fault in one of its dict-valued fields. */
  predicate AnySevere(full: Dict<PyValue>)
  {
    exists i, c, j :: 0 <= i < |full| && Listed(full[i].1) && 0 <= c < |full[i].1.entries|
                      && full[i].1.entries[c].1.PyDict? && 0 <= j < |full[i].1.entries[c].1.entries|
                      && Severe(full[i].1.entries[c].1.entries[j].1)
  }

  /** A listed test is reported exactly when it has a severe fault. */
  lemma ReportedIffSevere(entry: (string, PyValue))
    requires Listed(entry.1)
    ensures Reported(entry) <==>
      exists c, j :: 0 <= c < |entry.1.entries| && entry.1.entries[c].1.PyDict? && 0 <= j < |entry.1.entries[c].1.entries|
                     && Severe(entry.1.entries[c].1.entries[j].1)
  {
    var t := entry.1.entries;
    TestLinesEmpty(t);
    forall c | 0 <= c < |t| && t[c].1.PyDict? {
      CategoryLinesMeaning(t[c].1.entries);
    }
  }

  /** The pain flag implies a listed severe fault. */
  lemma PainIsSevere(full: Dict<PyValue>)
    requires PainDetected(full)
    ensures AnySevere(full)
  {
    PainDetectedMeaning(full);
    var i :| 0 <= i < |full| && Listed(full[i].1) && TestPain(full[i].1.entries);
    var t := full[i].1.entries;
    TestPainMeaning(t);
    var c :| 0 <= c < |t| && t[c].1.PyDict? && CategoryPain(t[c].1.entries);
    CategoryPainMeaning(t[c].1.entries);
    var j :| 0 <= j < |t[c].1.entries| && Severe(t[c].1.entries[j].1) && MarksPain(t[c].1.entries[j].0);
  }

  /** A non-empty block list joins to a string that starts with `**`, like every block. */
  lemma BlocksVersusNoFaults(full: Dict<PyValue>)
    requires Blocks(full) != []
    ensures Join(Blocks(full), "\n\n") != NoFaults && !StartsWith(Join(Blocks(full), "\n\n"), PainBanner)
  {
    var blocks := Blocks(full);
    ListingMeaning(full, Reported, BlockOf);
    assert blocks[0] in blocks;
    var i :| 0 <= i < |full| && Reported(full[i]) && blocks[0] == BlockOf(full[i]);
    assert StartsWith(blocks[0], "**");
    assert blocks[0][0] == '*';
    var joined := Join(blocks, "\n\n");
    JoinStartsWith(blocks, "\n\n");
    assert joined[0] == '*';
    assert NoFaults[0] == 'N' && PainBanner[0] == 'P';
  }

  /**
   * The summary is the "no severe faults" sentence exactly when no listed
   * test has a numeric severity of 3 or more in a nested category.
   */
  lemma NoFaultsIffNoSevere(full: Dict<PyValue>)
    ensures FaultsText(full) == NoFaults <==> !AnySevere(full)
  {
    BlocksMeaning(full);
    if AnySevere(full) {
      var i, c, j :| 0 <= i < |full| && Listed(full[i].1) && 0 <= c < |full[i].1.entries|
                     && full[i].1.entries[c].1.PyDict? && 0 <= j < |full[i].1.entries[c].1.entries|
                     && Severe(full[i].1.entries[c].1.entries[j].1);
      ReportedIffSevere(full[i]);
      if PainDetected(full) {
        assert FaultsText(full)[0] == 'P';
      } else {
        BlocksVersusNoFaults(full);
      }
    } else {
      if PainDetected(full) {
        PainIsSevere(full);
      }
      forall i | 0 <= i < |full| ensures !Reported(full[i]) {
        if Listed(full[i].1) {
          ReportedIffSevere(full[i]);
        }
      }
    }
  }

  /** The summary opens with the pain banner exactly when a listed test has a severe `pain_reported` fault. */
  lemma PainBannerIffPain(full: Dict<PyValue>)
    ensures StartsWith(FaultsText(full), PainBanner) <==> PainDetected(full)
  {
    if !PainDetected(full) {
      if Blocks(full) != [] {
        BlocksVersusNoFaults(full);
      } else {
        assert NoFaults[0] == 'N';
      }
    }
  }

  /** One category of one test: its lines and whether it sets the pain flag. */
  method CategoryFaults(details: Dict<PyValue>) returns (lines: seq<string>, pain: bool)
    ensures lines == CategoryLines(details) && pain == CategoryPain(details)
  {
    lines := [];
    pain := false;
    var j := 0;
    while j < |details|
      invariant 0 <= j <= |details|
      invariant lines == CategoryLines(details[..j]) && pain == CategoryPain(details[..j])
    {
      var faultName := details[j].0;
      var severity := details[j].1;
      assert details[..j + 1][..j] == details[..j];
      if IsNumber(severity) && NumberValue(severity) >= 3 {
        var cleanName := Title(ReplaceChar(faultName, '_', ' '));
        var interpretation := "";
        if Contains(faultName, "heels_lift") {
          interpretation := "-> ankle restriction suspected";
        } else if Contains(faultName, "knee_valgus") {
          interpretation := "-> glute weakness / motor control";
        } else if Contains(faultName, "forward_lean") {
          interpretation := "-> thoracic/core weakness";
        } else if Contains(faultName, "pain_reported") && NumberValue(severity) > 0 {
          pain := true;
        }
        lines := lines + [cleanName + " (" + Str(severity) + "/4) " + interpretation];
      }
      j := j + 1;
    }
    assert details[..j] == details;
  }

  /** The loop over one test's fields. */
  method TestFaults(testData: Dict<PyValue>) returns (lines: seq<string>, pain: bool)
    ensures lines == TestLines(testData) && pain == TestPain(testData)
  {
    lines := [];
    pain := false;
    var c := 0;
    while c < |testData|
      invariant 0 <= c <= |testData|
      invariant lines == TestLines(testData[..c]) && pain == TestPain(testData[..c])
    {
      var details := testData[c].1;
      assert testData[..c + 1][..c] == testData[..c];
      if details.PyDict? {
        var more, categoryPain := CategoryFaults(details.entries);
        lines := lines + more;
        pain := pain || categoryPain;
      }
      c := c + 1;
    }
    assert testData[..c] == testData;
  }

  /** One more test of the outer loop: its block, if reported, and its pain flag are added. */
  lemma FormatStep(full: Dict<PyValue>, i: nat)
    requires i < |full|
    ensures Blocks(full[..i + 1]) == Blocks(full[..i]) + (if Reported(full[i]) then [BlockOf(full[i])] else [])
    ensures PainDetected(full[..i + 1]) == (PainDetected(full[..i]) || (Listed(full[i].1) && TestPain(full[i].1.entries)))
  {
    var p := full[..i + 1];
    assert p[..i] == full[..i] && p[i] == full[i];
  }

  /** `format_faults_for_prompt`. */
  method FormatFaultsForPrompt(full: Dict<PyValue>) returns (text: string)
    ensures text == FaultsText(full)
  {
    var faultSummary: seq<string> := [];
    var painDetected := false;
    var i := 0;
    while i < |full|
      invariant 0 <= i <= |full|
      invariant faultSummary == Blocks(full[..i]) && painDetected == PainDetected(full[..i])
    {
      var testName := full[i].0;
      var testData := full[i].1;
      FormatStep(full, i);
      if !testData.PyDict? || "score" !in Keys(testData.entries) {
        i := i + 1;
        continue;
      }
      var testFaults, testPain := TestFaults(testData.entries);
      painDetected := painDetected || testPain;
      if testFaults != [] {
        faultSummary := faultSummary + [Block(testName, testData.entries, testFaults)];
      }
      i := i + 1;
    }
    assert full[..i] == full;
    if painDetected {
      return PainBanner + Join(faultSummary, "\n");
    }
    text := if faultSummary != [] then Join(faultSummary, "\n\n") else NoFaults;
  }

  // ---------------------------------------------------------------------
  // generate_workout_plan
  // ---------------------------------------------------------------------

  /** The five variables the prompt template is filled with. */
  datatype Prompt = Prompt(status: string, level: string, reason: string, faultsText: string, exerciseList: string)

  /** What the template, model and JSON parser chain gives back: a parsed object, or an exception. */
  datatype LlmOutcome = Reply(response: Dict<PyValue>) | Failure(message: string)

  function Plan(title: string, summary: string, color: string): Dict<PyValue>
  {
    [("session_title", PyStr(title)), ("coach_summary", PyStr(summary)), ("difficulty_color", PyStr(color)),
     ("exercises", PyList([]))]
  }

  const ConfigurationError: Dict<PyValue> :=
    [("session_title", PyStr("Configuration Error")), ("coach_summary", PyStr("GROQ_API_KEY missing.")),
     ("exercises", PyList([]))]

  const MedicalReferral := Plan("Medical Referral Required",
    "Pain was reported during screening. Do NOT proceed with corrective exercise. Please consult a physical therapist or doctor.",
    "Red")

  const NoDrills := Plan("Assessment Complete - No Specific Drills",
    "Based on the inputs, no specific corrective exercises were found in the database for this combination of faults and level. The athlete may be cleared for general training or requires a different database.",
    "Green")

  function GenerationError(message: string): Dict<PyValue>
  {
    Plan("Generation Error", "AI Generation failed: " + message, "Red")
  }

  /** `x.get('exercise_name', '')`, the sort key. */
  function NameKey(ex: Dict<PyValue>): PyValue
  {
    Get(ex, "exercise_name", PyStr(""))
  }

  /** Keys `sorted` can order among themselves: all numbers, or all strings. */
  predicate UniformKeys(exercises: seq<Dict<PyValue>>)
  {
    || (forall i :: 0 <= i < |exercises| ==> IsNumber(NameKey(exercises[i])))
    || (forall i :: 0 <= i < |exercises| ==> NameKey(exercises[i]).PyStr?)
  }

  /** No later item's key is `<` an earlier one's. */
  predicate SortedBy<T>(xs: seq<T>, key: T -> PyValue)
  {
    forall i, j :: 0 <= i < j < |xs| ==> !Below(key(xs[j]), key(xs[i]))
  }

  /** Places `x` after every item whose key it is not `<`, so equal keys keep their order. */
  function InsertBy<T>(sorted: seq<T>, x: T, key: T -> PyValue): seq<T>
  {
    if sorted == [] then [x]
    else if Below(key(x), key(sorted[0])) then [x] + sorted
    else [sorted[0]] + InsertBy(sorted[1..], x, key)
  }

  lemma {:induction false} InsertByPermutes<T>(sorted: seq<T>, x: T, key: T -> PyValue)
    ensures multiset(InsertBy(sorted, x, key)) == multiset(sorted) + multiset{x}
  {
    if sorted != [] && !Below(key(x), key(sorted[0])) {
      InsertByPermutes(sorted[1..], x, key);
      assert sorted == [sorted[0]] + sorted[1..];
    }
  }

  lemma {:induction false} InsertBySorted<T>(sorted: seq<T>, x: T, key: T -> PyValue)
    requires SortedBy(sorted, key)
    ensures SortedBy(InsertBy(sorted, x, key), key)
  {
    if sorted == [] {
    } else if Below(key(x), key(sorted[0])) {
      forall j | 0 <= j < |sorted| ensures !Below(key(sorted[j]), key(x)) {
        LessIsStrictOrder(key(sorted[j]), key(x), key(sorted[0]));
      }
      var r := [x] + sorted;
      assert forall j :: 1 <= j < |r| ==> r[j] == sorted[j - 1];
    } else {
      var tail := sorted[1..];
      var rest := InsertBy(tail, x, key);
      assert forall j :: 0 <= j < |tail| ==> tail[j] == sorted[j + 1];
      InsertBySorted(tail, x, key);
      InsertByPermutes(tail, x, key);
      forall k | 0 <= k < |rest| ensures !Below(key(rest[k]), key(sorted[0])) {
        assert rest[k] in multiset(rest);
        if rest[k] != x {
          assert rest[k] in multiset(tail);
          var m :| 0 <= m < |tail| && tail[m] == rest[k];
        }
      }
      var r := [sorted[0]] + rest;
      assert forall j :: 1 <= j < |r| ==> r[j] == rest[j - 1];
    }
  }

  /** Python's `sorted` (stable) by a key: each item inserted in turn. */
  function SortBy<T>(xs: seq<T>, key: T -> PyValue): seq<T>
  {
    if xs == [] then []
    else
      var n := |xs| - 1;
      InsertBy(SortBy(xs[..n], key), xs[n], key)
  }

  /** The sort returns the same items, ordered by key. */
  lemma {:induction false} SortByCorrect<T>(xs: seq<T>, key: T -> PyValue)
    ensures SortedBy(SortBy(xs, key), key)
    ensures multiset(SortBy(xs, key)) == multiset(xs)
  {
    if xs != [] {
      var n := |xs| - 1;
      SortByCorrect(xs[..n], key);
      InsertBySorted(SortBy(xs[..n], key), xs[n], key);
      InsertByPermutes(SortBy(xs[..n], key), xs[n], key);
      assert xs == xs[..n] + [xs[n]];
    }
  }

  /** The first neighbours from position `i` on, later item first, whose keys `<` cannot compare. */
  function Clash(exercises: seq<Dict<PyValue>>, i: nat): (r: Option<nat>)
    requires i >= 1
    ensures r.Some? ==> i <= r.value < |exercises|
                        && !Comparable(NameKey(exercises[r.value]), NameKey(exercises[r.value - 1]))
    ensures r.None? ==> forall k :: i <= k < |exercises| ==> Comparable(NameKey(exercises[k]), NameKey(exercises[k - 1]))
    decreases |exercises| - i
  {
    if i >= |exercises| then None
    else if !Comparable(NameKey(exercises[i]), NameKey(exercises[i - 1])) then Some(i)
    else Clash(exercises, i + 1)
  }

  /**
   * `sorted(exercises, key=lambda x: x.get('exercise_name', ''))`: the
   * stable sort, or, when two neighbouring keys do not compare, the
   * TypeError of `<` on them.
   */
  function SortExercises(exercises: seq<Dict<PyValue>>): (r: Result<seq<Dict<PyValue>>, PyError>)
    ensures r.Ok? <==> |exercises| <= 1 || UniformKeys(exercises)
    ensures r.Err? ==>
      exists i :: && 1 <= i < |exercises|
                  && !Comparable(NameKey(exercises[i]), NameKey(exercises[i - 1]))
                  && r.error == NotComparable("<", NameKey(exercises[i]), NameKey(exercises[i - 1]))
  {
    NeighboursComparable(exercises);
    match Clash(exercises, 1)
    case Some(i) => Err(NotComparable("<", NameKey(exercises[i]), NameKey(exercises[i - 1])))
    case None => Ok(SortBy(exercises, NameKey))
  }

  /** Neighbouring keys all compare exactly when all keys are numbers or all are strings (or there is at most one). */
  lemma {:induction false} NeighboursComparable(exercises: seq<Dict<PyValue>>)
    ensures (forall k :: 1 <= k < |exercises| ==> Comparable(NameKey(exercises[k]), NameKey(exercises[k - 1])))
            <==> |exercises| <= 1 || UniformKeys(exercises)
  {
    if |exercises| >= 2 && forall k :: 1 <= k < |exercises| ==> Comparable(NameKey(exercises[k]), NameKey(exercises[k - 1])) {
      var first := NameKey(exercises[0]);
      forall k | 0 <= k < |exercises| ensures Comparable(NameKey(exercises[k]), first) {
        KeyClassReaches(exercises, k);
      }
    }
  }

  lemma {:induction false} KeyClassReaches(exercises: seq<Dict<PyValue>>, k: nat)
    requires 2 <= |exercises| && k < |exercises|
    requires forall m :: 1 <= m < |exercises| ==> Comparable(NameKey(exercises[m]), NameKey(exercises[m - 1]))
    ensures Comparable(NameKey(exercises[k]), NameKey(exercises[0]))
  {
    if k == 0 {
      assert Comparable(NameKey(exercises[1]), NameKey(exercises[0]));
    } else {
      KeyClassReaches(exercises, k - 1);
      LessIsStrictOrder(NameKey(exercises[k]), NameKey(exercises[k - 1]), NameKey(exercises[0]));
    }
  }

  /** A successful sort is a permutation in which every two keys compare and none is `<` an earlier one. */
  lemma SortExercisesCorrect(exercises: seq<Dict<PyValue>>)
    requires SortExercises(exercises).Ok?
    ensures var r := SortExercises(exercises).value;
            && multiset(r) == multiset(exercises)
            && SortedBy(r, NameKey)
            && forall i, j :: 0 <= i < j < |r| ==> Comparable(NameKey(r[i]), NameKey(r[j]))
  {
    var r := SortExercises(exercises).value;
    SortByCorrect(exercises, NameKey);
    forall i, j | 0 <= i < j < |r| ensures Comparable(NameKey(r[i]), NameKey(r[j])) {
      assert r[i] in multiset(exercises) && r[j] in multiset(exercises);
      var a :| 0 <= a < |exercises| && exercises[a] == r[i];
      var b :| 0 <= b < |exercises| && exercises[b] == r[j];
    }
  }

  /** `', '.join(tags)`: a list of strings, a string (its characters) or a dict (its keys). */
  function JoinTags(tags: PyValue): (r: Result<string, PyError>)
    ensures tags.PyList? && (forall i :: 0 <= i < |tags.elems| ==> tags.elems[i].PyStr?) ==> r.Ok?
    ensures !(tags.PyList? || tags.PyStr? || tags.PyDict?) ==> r.Err?
  {
    match tags
    case PyList(xs) =>
      if forall i :: 0 <= i < |xs| ==> xs[i].PyStr? then Ok(Join(seq(|xs|, i requires 0 <= i < |xs| => xs[i].s), ", "))
      else
        var k := FirstNonString(xs);
        Err(PyError(TypeError, "sequence item " + IntToString(k) + ": expected str instance, " + TypeName(xs[k]) + " found"))
    case PyStr(s) => Ok(Join(seq(|s|, i requires 0 <= i < |s| => [s[i]]), ", "))
    case PyDict(d) => Ok(Join(Keys(d), ", "))
    case _ => Err(PyError(TypeError, "can only join an iterable"))
  }

  function FirstNonString(xs: seq<PyValue>): (k: nat)
    requires exists i :: 0 <= i < |xs| && !xs[i].PyStr?
    ensures k < |xs| && !xs[k].PyStr? && forall i :: 0 <= i < k ==> xs[i].PyStr?
  {
    if !xs[0].PyStr? then 0
    else
      assert forall i :: 1 <= i < |xs| ==> xs[i] == xs[1..][i - 1];
      1 + FirstNonString(xs[1..])
  }

  /** One exercise's block in the prompt. */
  function ExerciseText(ex: Dict<PyValue>): Result<string, PyError>
  {
    match JoinTags(Get(ex, "tags", PyList([])))
    case Err(e) => Err(e)
    case Ok(tags) =>
      Ok("- **" + Str(Get(ex, "exercise_name", PyStr("Unknown"))) + "** (Level " + Str(Get(ex, "difficulty_level", PyStr("?")))
         + ")\n  Tags: " + tags + "\n  Description: " + Str(Get(ex, "description", PyStr("No description"))))
  }

  /** The exercise list: the exercise blocks joined by newlines. */
  function ExerciseList(exercises: seq<Dict<PyValue>>): Result<seq<string>, PyError>
  {
    if exercises == [] then Ok([])
    else
      match ExerciseText(exercises[0])
      case Err(e) => Err(e)
      case Ok(t) =>
        match ExerciseList(exercises[1..])
        case Err(e) => Err(e)
        case Ok(rest) => Ok([t] + rest)
  }

  /** The prompt variables, each with its default. */
  function PromptFor(context: Dict<PyValue>, faultsText: string, exerciseText: string): Prompt
  {
    Prompt(Str(Get(context, "status", PyStr("TRAINING"))), Str(Get(context, "target_level", PyInt(1))),
           Str(Get(context, "reason", PyStr("General movement"))), faultsText, exerciseText)
  }

  /** A reply without `difficulty_color` gets "Yellow"; a failure becomes the Generation Error plan. */
  function HandleReply(outcome: LlmOutcome): (r: Dict<PyValue>)
    ensures outcome.Reply? ==> "difficulty_color" in Keys(r)
    ensures outcome.Reply? && "difficulty_color" in Keys(outcome.response) ==> r == outcome.response
    ensures outcome.Reply? && "difficulty_color" !in Keys(outcome.response) ==>
              Lookup(r, "difficulty_color") == Some(PyStr("Yellow"))
              && forall k :: k != "difficulty_color" ==> Lookup(r, k) == Lookup(outcome.response, k)
    ensures outcome.Failure? ==> r == GenerationError(outcome.message)
  {
    match outcome
    case Reply(response) =>
      if "difficulty_color" !in Keys(response) then Put(response, "difficulty_color", PyStr("Yellow")) else response
    case Failure(message) => GenerationError(message)
  }

  /**
   * `generate_workout_plan`.  `apiKey` is the `GROQ_API_KEY` environment
   * variable; an error is an exception raised outside the `try` (by the
   * sort, the tag join or a non-dict `detailed_faults`).
   */
  function GenerateWorkoutPlan(apiKey: Option<string>, context: Dict<PyValue>, exercises: seq<Dict<PyValue>>,
                               llm: Prompt -> LlmOutcome): Result<Dict<PyValue>, PyError>
  {
    if apiKey == None || apiKey == Some("") then Ok(ConfigurationError)
    else if Get(context, "status", PyNone) == PyStr("STOP") then Ok(MedicalReferral)
    else if exercises == [] then Ok(NoDrills)
    else
      match SortExercises(exercises)
      case Err(e) => Err(e)
      case Ok(sorted) =>
        match ExerciseList(sorted)
        case Err(e) => Err(e)
        case Ok(blocks) =>
          var details := Get(context, "detailed_faults", PyDict([]));
          if !details.PyDict? then Err(NoAttribute(details, "items"))
          else Ok(HandleReply(llm(PromptFor(context, FaultsText(details.entries), Join(blocks, "\n")))))
  }

  /** Whether the model chain would be invoked: only after all three guards pass and the prompt is built. */
  predicate CallsModel(apiKey: Option<string>, context: Dict<PyValue>, exercises: seq<Dict<PyValue>>)
  {
    && apiKey != None && apiKey != Some("")
    && Get(context, "status", PyNone) != PyStr("STOP")
    && exercises != []
  }

  /**
   * The guards fire in order (missing key, then STOP, then no exercises),
   * each returns its fixed plan, and none of them depends on the model.
   */
  lemma GuardsBeforeModel(apiKey: Option<string>, context: Dict<PyValue>, exercises: seq<Dict<PyValue>>,
                          llm1: Prompt -> LlmOutcome, llm2: Prompt -> LlmOutcome)
    ensures !CallsModel(apiKey, context, exercises) ==>
              GenerateWorkoutPlan(apiKey, context, exercises, llm1) == GenerateWorkoutPlan(apiKey, context, exercises, llm2)
    ensures (apiKey == None || apiKey == Some("")) ==> GenerateWorkoutPlan(apiKey, context, exercises, llm1) == Ok(ConfigurationError)
    ensures apiKey != None && apiKey != Some("") && Get(context, "status", PyNone) == PyStr("STOP") ==>
              GenerateWorkoutPlan(apiKey, context, exercises, llm1) == Ok(MedicalReferral)
    ensures apiKey != None && apiKey != Some("") && Get(context, "status", PyNone) != PyStr("STOP") && exercises == [] ==>
              GenerateWorkoutPlan(apiKey, context, exercises, llm1) == Ok(NoDrills)
  {
  }

  /**
   * When the model is called it sees the exercises in name order, and what
   * it returns always ends up with a `difficulty_color`; a model failure
   * becomes the red Generation Error plan with an empty exercise list.
   */
  lemma ModelCallShape(apiKey: Option<string>, context: Dict<PyValue>, exercises: seq<Dict<PyValue>>, llm: Prompt -> LlmOutcome)
    requires CallsModel(apiKey, context, exercises)
    requires GenerateWorkoutPlan(apiKey, context, exercises, llm).Ok?
    ensures var blocks := ExerciseList(SortBy(exercises, NameKey));
            var details := Get(context, "detailed_faults", PyDict([]));
            && blocks.Ok? && details.PyDict?
            && var prompt := PromptFor(context, FaultsText(details.entries), Join(blocks.value, "\n"));
               && GenerateWorkoutPlan(apiKey, context, exercises, llm) == Ok(HandleReply(llm(prompt)))
               && (llm(prompt).Reply? ==> "difficulty_color" in Keys(GenerateWorkoutPlan(apiKey, context, exercises, llm).value))
  {
  }
}
