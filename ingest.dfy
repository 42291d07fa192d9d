/**
 * `run_ingestion` (src/ingest/excel_to_json_mapper.py): turns the exercise
 * progression sheet into the knowledge base the retriever reads.  Each row
 * names a category in its EXERCISE column and lists exercises in the
 * columns `LEVEL 1` .. `LEVEL 10`; a cell may hold several exercises
 * separated by commas outside parentheses.  Every exercise becomes one
 * entry with a running id.
 *
 * The workbook is a parameter: pandas' reading of it is abstracted to the
 * stripped column names and, per row, the text of each non-empty cell
 * (an absent entry or `None` is a NaN cell).  Printing and the JSON file
 * write are left out; the outcome carries the list that is written.
 */
module Ingest {
  import opened Outcomes
  import opened Dicts
  import opened Text
  import opened Py

  // ----------------------------------------------------------- cell splitting

  /** The first parenthesis in `t` is a closing one: the regex lookahead `[^()]*\)`. */
  predicate ClosesFirst(t: string)
    decreases |t|
  {
    t != [] && (t[0] == ')' || (t[0] != '(' && ClosesFirst(t[1..])))
  }

  /** `,\s*(?![^()]*\))` matches at `i`: a comma that is not inside a parenthesised group. */
  predicate SplitsAt(s: string, i: nat)
    requires i < |s|
  {
    s[i] == ',' && !ClosesFirst(s[i + 1..])
  }

  /** The first position at or after `j` where the cell is split, or `|s|`. */
  function FirstSplit(s: string, j: nat): (i: nat)
    requires j <= |s|
    ensures j <= i <= |s|
    ensures i < |s| ==> SplitsAt(s, i)
    ensures forall k :: j <= k < i ==> !SplitsAt(s, k)
    decreases |s| - j
  {
    if j == |s| then j
    else if SplitsAt(s, j) then j
    else FirstSplit(s, j + 1)
  }

  /**
   * `re.split(r',\s*(?![^()]*\))', s)`: the pieces between the matches,
   * where a match is the comma and the whitespace after it.
   */
  function RawSplit(s: string): (pieces: seq<string>)
    ensures |pieces| >= 1
    decreases |s|
  {
    var i := FirstSplit(s, 0);
    if i == |s| then [s]
    else [s[..i]] + RawSplit(TrimStart(s[i + 1..], PySpace))
  }

  /** `[x.strip() for x in pieces if x.strip()]`. */
  function Clean(pieces: seq<string>): (r: seq<string>)
    ensures |r| <= |pieces|
    ensures forall k :: 0 <= k < |r| ==> r[k] != [] && !PySpace(r[k][0]) && !PySpace(r[k][|r[k]| - 1])
  {
    if pieces == [] then []
    else if Strip(pieces[0]) == [] then Clean(pieces[1..])
    else [Strip(pieces[0])] + Clean(pieces[1..])
  }

  /** Cleaning a list with one more piece at the end appends that piece's stripped text, unless it is empty. */
  lemma {:induction false} CleanAppend(pieces: seq<string>, p: string)
    ensures Clean(pieces + [p]) == Clean(pieces) + (if Strip(p) == [] then [] else [Strip(p)])
  {
    if pieces == [] {
      assert [] + [p] == [p];
    } else {
      CleanAppend(pieces[1..], p);
      assert (pieces + [p])[1..] == pieces[1..] + [p];
    }
  }

  /** The cleaned names are exactly the non-empty stripped pieces. */
  lemma {:induction false} CleanMembers(pieces: seq<string>)
    ensures forall x :: x in Clean(pieces) <==> x != [] && exists k :: 0 <= k < |pieces| && Strip(pieces[k]) == x
  {
    if pieces != [] {
      CleanMembers(pieces[1..]);
      assert forall k :: 1 <= k < |pieces| ==> pieces[k] == pieces[1..][k - 1];
    }
  }

  /** The exercise names of one cell. */
  function SplitCell(cell: string): (names: seq<string>)
  {
    Clean(RawSplit(cell))
  }

  /** A cell without a splitting comma is one exercise (or none when blank). */
  lemma UnsplitCell(cell: string)
    requires forall k :: 0 <= k < |cell| ==> !SplitsAt(cell, k)
    ensures SplitCell(cell) == if Strip(cell) == [] then [] else [Strip(cell)]
  {
    assert FirstSplit(cell, 0) == |cell|;
  }

  /** A comma inside a parenthesised group never splits. */
  lemma GroupedCommaKept(s: string, i: nat)
    requires i < |s| && s[i] == ','
    requires ClosesFirst(s[i + 1..])
    ensures !SplitsAt(s, i)
  {
  }

  /** Each piece but the last ends right before a splitting comma, and contains none itself. */
  lemma RawSplitFirstPiece(s: string)
    requires FirstSplit(s, 0) < |s|
    ensures RawSplit(s)[0] == s[..FirstSplit(s, 0)]
    ensures SplitsAt(s, |RawSplit(s)[0]|)
    ensures forall k :: 0 <= k < |RawSplit(s)[0]| ==> !SplitsAt(s, k)
  {
  }

  /** Text with no closing parenthesis cannot close first. */
  lemma {:induction false} NoCloseNoClosesFirst(t: string)
    requires forall k :: 0 <= k < |t| ==> t[k] != ')'
    ensures !ClosesFirst(t)
    decreases |t|
  {
    if t != [] {
      assert forall k :: 0 <= k < |t[1..]| ==> t[1..][k] == t[k + 1];
      NoCloseNoClosesFirst(t[1..]);
    }
  }

  /** A closing parenthesis with no parenthesis before it closes first. */
  lemma {:induction false} CloseFirstClosesFirst(t: string, c: nat)
    requires c < |t| && t[c] == ')'
    requires forall k :: 0 <= k < c ==> t[k] != '(' && t[k] != ')'
    ensures ClosesFirst(t)
    decreases c
  {
    if c > 0 {
      assert forall k :: 0 <= k < c - 1 ==> t[1..][k] == t[k + 1];
      CloseFirstClosesFirst(t[1..], c - 1);
    }
  }

  /** Text whose ends are not whitespace is its own strip. */
  lemma StrippedAlready(t: string)
    requires t != [] && !PySpace(t[0]) && !PySpace(t[|t| - 1])
    ensures Strip(t) == t
  {
  }

  /** The cell of the example below is split at its second comma only. */
  lemma ExampleFirstSplit()
    ensures FirstSplit("Row (1, 2), Dip", 0) == 10
  {
    var s := "Row (1, 2), Dip";
    CloseFirstClosesFirst(s[7..], 2);
    NoCloseNoClosesFirst(s[11..]);
    assert forall k :: 0 <= k < 10 ==> !SplitsAt(s, k);
    assert SplitsAt(s, 10);
  }

  /** Pieces that are already stripped and non-empty pass the clean-up unchanged. */
  lemma {:induction false} CleanKeepsStripped(pieces: seq<string>)
    requires forall k :: 0 <= k < |pieces| ==> pieces[k] != [] && !PySpace(pieces[k][0]) && !PySpace(pieces[k][|pieces[k]| - 1])
    ensures Clean(pieces) == pieces
  {
    if pieces != [] {
      StrippedAlready(pieces[0]);
      CleanKeepsStripped(pieces[1..]);
      assert pieces == [pieces[0]] + pieces[1..];
    }
  }

  /** A concrete cell: the comma in the parentheses stays, the other one splits. */
  lemma SplitExample()
    ensures RawSplit("Row (1, 2), Dip") == ["Row (1, 2)", "Dip"]
    ensures SplitCell("Row (1, 2), Dip") == ["Row (1, 2)", "Dip"]
  {
    var s := "Row (1, 2), Dip";
    ExampleFirstSplit();
    var rest := TrimStart(s[11..], PySpace);
    assert rest == "Dip";
    assert FirstSplit(rest, 0) == |rest|;
    assert s[..10] == "Row (1, 2)";
    CleanKeepsStripped(["Row (1, 2)", "Dip"]);
  }

  // ------------------------------------------------------------------ entries

  /** A knowledge-base entry: the JSON object `run_ingestion` appends. */
  type Entry = Dict<PyValue>

  /** One exercise to be written: its level, its name and its row's category. */
  datatype Item = Item(level: nat, name: string, category: string)

  /** `desc_lookup`: the Descriptions sheet's stripped names and their descriptions (`None` for NaN). */
  type DescriptionLookup = map<string, Option<string>>

  /** Whether a manual description exists: `ex_name in desc_lookup and pd.notna(desc_lookup[ex_name])`. */
  predicate HasManual(lookup: DescriptionLookup, name: string)
  {
    name in lookup && lookup[name].Some?
  }

  /** The generated placeholder description. */
  function AutoDescription(level: nat, category: string): string
  {
    "A Level " + NatToString(level) + " " + category + " exercise. "
    + "Suitable for FMS corrective strategies focusing on " + Lower(category) + "."
  }

  function Description(lookup: DescriptionLookup, item: Item): string
  {
    if HasManual(lookup, item.name) then lookup[item.name].value else AutoDescription(item.level, item.category)
  }

  function DescriptionSource(lookup: DescriptionLookup, item: Item): string
  {
    if HasManual(lookup, item.name) then "Manual" else "Auto"
  }

  /** `f"sq_{level}_{count}"`. */
  function EntryId(level: nat, count: nat): string
  {
    "sq_" + NatToString(level) + "_" + NatToString(count)
  }

  /** A knowledge-base entry, field by field. */
  datatype KbEntry = KbEntry(
    id: string, exerciseName: string, category: string, difficultyLevel: nat,
    description: string, descriptionSource: string, tags: seq<string>)

  /** The entry written for `item` when `count` entries precede it. */
  function MakeEntry(lookup: DescriptionLookup, item: Item, count: nat): KbEntry
  {
    KbEntry(EntryId(item.level, count), item.name, item.category, item.level,
            Description(lookup, item), DescriptionSource(lookup, item),
            [Lower(item.category), "level " + NatToString(item.level)])
  }

  /** The JSON object of an entry, keys in the order of the dict display. */
  function EntryJson(e: KbEntry): Entry
  {
    [("id", PyStr(e.id)),
     ("exercise_name", PyStr(e.exerciseName)),
     ("category", PyStr(e.category)),
     ("difficulty_level", PyInt(e.difficultyLevel)),
     ("description", PyStr(e.description)),
     ("description_source", PyStr(e.descriptionSource)),
     ("tags", PyList(PyStrs(e.tags)))]
  }

  function PyStrs(xs: seq<string>): (r: seq<PyValue>)
    ensures |r| == |xs|
    ensures forall k :: 0 <= k < |xs| ==> r[k] == PyStr(xs[k])
  {
    if xs == [] then [] else [PyStr(xs[0])] + PyStrs(xs[1..])
  }

  /** The knowledge base after appending the entries of `items`, in order, with the running count. */
  function Build(lookup: DescriptionLookup, items: seq<Item>): (kb: seq<KbEntry>)
    ensures |kb| == |items|
    decreases |items|
  {
    if items == [] then []
    else Build(lookup, items[..|items| - 1]) + [MakeEntry(lookup, items[|items| - 1], |items| - 1)]
  }

  lemma {:induction false} BuildAt(lookup: DescriptionLookup, items: seq<Item>, i: nat)
    requires i < |items|
    ensures Build(lookup, items)[i] == MakeEntry(lookup, items[i], i)
    decreases |items|
  {
    var n := |items| - 1;
    if i < n {
      BuildAt(lookup, items[..n], i);
    }
  }

  /** Appending after a run of items continues the count. */
  lemma BuildAppend(lookup: DescriptionLookup, items: seq<Item>, item: Item)
    ensures Build(lookup, items + [item]) == Build(lookup, items) + [MakeEntry(lookup, item, |items|)]
  {
    assert (items + [item])[..|items|] == items;
  }

  // -------------------------------------------------------------- the sheet

  /** A row: the text of each cell by stripped column name; `None` or no entry is NaN. */
  type Row = map<string, Option<string>>

  function Cell(row: Row, column: string): Option<string>
  {
    if column in row then row[column] else None
  }

  /** `f'LEVEL {level}'`. */
  function LevelColumn(level: nat): string
  {
    "LEVEL " + NatToString(level)
  }

  /** The exercises of one level of a row: none when the column is absent or the cell is NaN. */
  function CellItems(columns: seq<string>, row: Row, category: string, level: nat): seq<Item>
  {
    if LevelColumn(level) !in columns || Cell(row, LevelColumn(level)).None? then []
    else
      var names := SplitCell(Cell(row, LevelColumn(level)).value);
      seq(|names|, k requires 0 <= k < |names| => Item(level, names[k], category))
  }

  /** The exercises of levels 1 .. `upTo` of a row, in level order. */
  function LevelItems(columns: seq<string>, row: Row, category: string, upTo: nat): seq<Item>
    decreases upTo
  {
    if upTo == 0 then [] else LevelItems(columns, row, category, upTo - 1) + CellItems(columns, row, category, upTo)
  }

  /** The category of a row that survived `dropna`. */
  function Category(row: Row): string
    requires Cell(row, "EXERCISE").Some?
  {
    Strip(Cell(row, "EXERCISE").value)
  }

  /** The exercises of one row: none when its EXERCISE cell is NaN. */
  function RowItems(columns: seq<string>, row: Row): seq<Item>
  {
    if Cell(row, "EXERCISE").None? then [] else LevelItems(columns, row, Category(row), 10)
  }

  /** The exercises of `rows`, in row, then level, then piece order. */
  function SheetItems(columns: seq<string>, rows: seq<Row>): seq<Item>
    decreases |rows|
  {
    if rows == [] then [] else SheetItems(columns, rows[..|rows| - 1]) + RowItems(columns, rows[|rows| - 1])
  }

  /** The workbook as the script sees it. */
  datatype Workbook = Workbook(
    columns: seq<string>,                   // the matrix sheet's column names, before stripping
    rows: seq<Row>,                         // its rows, keyed by stripped column name
    descriptions: Option<DescriptionLookup>)   // the Descriptions sheet, when it can be read

  datatype Source = NoFile | Unreadable(message: string) | Readable(book: Workbook)

  datatype IngestOutcome =
    | FileNotFound                 // the early return when the file does not exist
    | ReadFailed(message: string)  // the early return when the matrix sheet cannot be read
    | MissingExerciseColumn        // `dropna(subset=['EXERCISE'])` raises KeyError
    | Written(knowledgeBase: seq<KbEntry>, count: nat)

  /** `[str(c).strip() for c in df_matrix.columns]`. */
  function StripAll(columns: seq<string>): (r: seq<string>)
    ensures |r| == |columns|
  {
    if columns == [] then [] else [Strip(columns[0])] + StripAll(columns[1..])
  }

  /** What `run_ingestion` does with a source. */
  function Ingestion(source: Source): IngestOutcome
  {
    match source
    case NoFile => FileNotFound
    case Unreadable(message) => ReadFailed(message)
    case Readable(book) =>
      var columns := StripAll(book.columns);
      var lookup := if book.descriptions.Some? then book.descriptions.value else map[];
      if "EXERCISE" !in columns then MissingExerciseColumn
      else
        var items := SheetItems(columns, book.rows);
        Written(Build(lookup, items), |items|)
  }

  /** `run_ingestion()`. */
  method RunIngestion(source: Source) returns (outcome: IngestOutcome)
    ensures outcome == Ingestion(source)
  {
    if source.NoFile? {
      return FileNotFound;
    }
    if source.Unreadable? {
      return ReadFailed(source.message);
    }
    var book := source.book;
    var lookup: DescriptionLookup := if book.descriptions.Some? then book.descriptions.value else map[];
    var columns := StripAll(book.columns);
    if "EXERCISE" !in columns {
      return MissingExerciseColumn;
    }
    var knowledgeBase: seq<KbEntry> := [];
    var count: nat := 0;
    for r := 0 to |book.rows|
      invariant knowledgeBase == Build(lookup, SheetItems(columns, book.rows[..r]))
      invariant count == |SheetItems(columns, book.rows[..r])|
    {
      PrefixStep(book.rows, r);
      knowledgeBase, count := IngestRow(lookup, columns, book.rows[r], knowledgeBase, count, SheetItems(columns, book.rows[..r]));
    }
    PrefixAll(book.rows);
    return Written(knowledgeBase, count);
  }

  /** The body of the row loop: nothing for a row dropped by `dropna`, else its levels' entries. */
  method IngestRow(lookup: DescriptionLookup, columns: seq<string>, row: Row, kb: seq<KbEntry>, count: nat, ghost done: seq<Item>)
    returns (kb': seq<KbEntry>, count': nat)
    requires kb == Build(lookup, done) && count == |done|
    ensures kb' == Build(lookup, done + RowItems(columns, row))
    ensures count' == |done| + |RowItems(columns, row)|
  {
    if Cell(row, "EXERCISE").None? {
      assert done + RowItems(columns, row) == done;
      return kb, count;
    }
    var category := Strip(Cell(row, "EXERCISE").value);
    kb', count' := IngestLevels(lookup, columns, row, category, kb, count, done);
  }

  /** `for level in range(1, 11)`: the entries of each level column in turn. */
  method IngestLevels(lookup: DescriptionLookup, columns: seq<string>, row: Row, category: string, kb: seq<KbEntry>, count: nat, ghost done: seq<Item>)
    returns (kb': seq<KbEntry>, count': nat)
    requires kb == Build(lookup, done) && count == |done|
    ensures kb' == Build(lookup, done + LevelItems(columns, row, category, 10))
    ensures count' == |done| + |LevelItems(columns, row, category, 10)|
  {
    kb', count' := kb, count;
    LevelStep(done, columns, row, category, 0);
    for level := 1 to 11
      invariant kb' == Build(lookup, done + LevelItems(columns, row, category, level - 1))
      invariant count' == |done + LevelItems(columns, row, category, level - 1)|
    {
      var items := CellItems(columns, row, category, level);
      LevelStep(done, columns, row, category, level);
      kb', count' := AppendEntries(lookup, kb', count', done + LevelItems(columns, row, category, level - 1), items);
    }
  }

  /** One more level appends that level's cell to what the earlier levels gave. */
  lemma LevelStep(done: seq<Item>, columns: seq<string>, row: Row, category: string, level: nat)
    ensures level == 0 ==> done + LevelItems(columns, row, category, level) == done
    ensures level > 0 ==>
      done + LevelItems(columns, row, category, level) == (done + LevelItems(columns, row, category, level - 1)) + CellItems(columns, row, category, level)
  {
    if level > 0 {
      AppendAssoc(done, LevelItems(columns, row, category, level - 1), CellItems(columns, row, category, level));
    }
  }

  /** The innermost loop: one entry per exercise of a cell, counting on. */
  method AppendEntries(lookup: DescriptionLookup, kb: seq<KbEntry>, count: nat, ghost done: seq<Item>, items: seq<Item>)
    returns (kb': seq<KbEntry>, count': nat)
    requires kb == Build(lookup, done) && count == |done|
    ensures kb' == Build(lookup, done + items)
    ensures count' == |done| + |items|
  {
    kb', count' := kb, count;
    AppendStep(lookup, done, items, 0, kb);
    for p := 0 to |items|
      invariant kb' == Build(lookup, done + items[..p])
      invariant count' == |kb'| == |done| + p
    {
      AppendStep(lookup, done, items, p, kb');
      kb' := kb' + [MakeEntry(lookup, items[p], count')];
      count' := count' + 1;
    }
    PrefixAll(items);
  }

  /** Appending the next exercise of a cell adds its entry with the running count. */
  lemma AppendStep(lookup: DescriptionLookup, done: seq<Item>, items: seq<Item>, p: nat, kb: seq<KbEntry>)
    requires p <= |items|
    ensures p == 0 ==> done + items[..p] == done
    ensures p < |items| && kb == Build(lookup, done + items[..p]) ==>
      Build(lookup, done + items[..p + 1]) == kb + [MakeEntry(lookup, items[p], |kb|)]
  {
    if p < |items| {
      BuildAppend(lookup, done + items[..p], items[p]);
      PrefixStep(items, p);
      AppendAssoc(done, items[..p], [items[p]]);
    }
  }

  // ------------------------------------------------------------- properties

  /** Digits never contain the id separator. */
  lemma NoUnderscore(n: nat)
    ensures forall k :: 0 <= k < |NatToString(n)| ==> NatToString(n)[k] != '_'
  {
  }

  /** `a + "_" + b` determines `a` and `b` when `a` has no underscore. */
  /** The characters of `a + "_" + b` at the end of `a`, read also through `c + "_" + d`. */
  lemma JoinedAt(a: string, b: string, c: string, d: string, i: nat)
    ensures i == |a| && i < |c| && a + "_" + b == c + "_" + d ==> c[i] == '_'
  {
    if i == |a| && i < |c| && a + "_" + b == c + "_" + d {
      assert (a + "_" + b)[i] == '_';
      assert (c + "_" + d)[i] == c[i];
    }
  }

  lemma {:induction false} SplitAtUnderscore(a: string, b: string, c: string, d: string)
    requires forall k :: 0 <= k < |a| ==> a[k] != '_'
    requires forall k :: 0 <= k < |c| ==> c[k] != '_'
    requires a + "_" + b == c + "_" + d
    ensures a == c && b == d
  {
    var x := a + "_" + b;
    if |a| < |c| {
      JoinedAt(a, b, c, d, |a|);
      assert false;
    } else if |c| < |a| {
      JoinedAt(c, d, a, b, |c|);
      assert false;
    } else {
      assert a == x[..|a|] && c == x[..|c|];
      assert b == x[|a| + 1..] && d == x[|c| + 1..];
    }
  }

  /** Ids written with different counts differ, whatever their levels. */
  lemma EntryIdInjective(l1: nat, n1: nat, l2: nat, n2: nat)
    requires EntryId(l1, n1) == EntryId(l2, n2)
    ensures l1 == l2 && n1 == n2
  {
    var a, b := NatToString(l1), NatToString(n1);
    var c, d := NatToString(l2), NatToString(n2);
    assert ("sq_" + a + "_" + b)[3..] == a + "_" + b;
    assert ("sq_" + c + "_" + d)[3..] == c + "_" + d;
    NoUnderscore(l1);
    NoUnderscore(l2);
    SplitAtUnderscore(a, b, c, d);
    NatToStringInjective(l1, l2);
    NatToStringInjective(n1, n2);
  }

  /** The entry's JSON object carries its fields under the keys the retriever reads. */
  lemma EntryJsonFields(e: KbEntry)
    ensures Lookup(EntryJson(e), "id") == Some(PyStr(e.id))
    ensures Lookup(EntryJson(e), "exercise_name") == Some(PyStr(e.exerciseName))
    ensures Lookup(EntryJson(e), "category") == Some(PyStr(e.category))
    ensures Lookup(EntryJson(e), "difficulty_level") == Some(PyInt(e.difficultyLevel))
  {
    var d := EntryJson(e);
    // The seven keys have seven different lengths.
    assert forall i, j :: 0 <= j < i < |d| ==> |d[j].0| != |d[i].0|;
    LookupFirst(d, 0);
    LookupFirst(d, 1);
    LookupFirst(d, 2);
    LookupFirst(d, 3);
  }

  lemma EntryJsonDescription(e: KbEntry)
    ensures Lookup(EntryJson(e), "description") == Some(PyStr(e.description))
    ensures Lookup(EntryJson(e), "description_source") == Some(PyStr(e.descriptionSource))
    ensures Lookup(EntryJson(e), "tags") == Some(PyList(PyStrs(e.tags)))
  {
    var d := EntryJson(e);
    assert forall i, j :: 0 <= j < i < |d| ==> |d[j].0| != |d[i].0|;
    LookupFirst(d, 4);
    LookupFirst(d, 5);
    LookupFirst(d, 6);
  }

  /**
   * Entry `i` of the knowledge base is the `i`-th exercise: its id is
   * `sq_{level}_{i}`, it keeps the exercise's name, category and level, and
   * its tags are the lower-cased category and `level {level}`.
   */
  lemma EntryShape(lookup: DescriptionLookup, items: seq<Item>, i: nat)
    requires i < |items|
    ensures Build(lookup, items)[i].id == EntryId(items[i].level, i)
    ensures Build(lookup, items)[i].exerciseName == items[i].name
    ensures Build(lookup, items)[i].category == items[i].category
    ensures Build(lookup, items)[i].difficultyLevel == items[i].level
    ensures Build(lookup, items)[i].tags == [Lower(items[i].category), "level " + NatToString(items[i].level)]
  {
    BuildAt(lookup, items, i);
  }

  /** The description is the manual one exactly when the lookup has a non-NaN text for the name. */
  lemma DescriptionChoice(lookup: DescriptionLookup, items: seq<Item>, i: nat)
    requires i < |items|
    ensures Build(lookup, items)[i].descriptionSource == if HasManual(lookup, items[i].name) then "Manual" else "Auto"
    ensures HasManual(lookup, items[i].name) ==> Build(lookup, items)[i].description == lookup[items[i].name].value
    ensures !HasManual(lookup, items[i].name) ==> Build(lookup, items)[i].description == AutoDescription(items[i].level, items[i].category)
  {
    BuildAt(lookup, items, i);
  }

  /** Different entries have different ids, so the final count is the number of distinct ids. */
  lemma IdsDistinct(lookup: DescriptionLookup, items: seq<Item>, i: nat, j: nat)
    requires i < j < |items|
    ensures Build(lookup, items)[i].id != Build(lookup, items)[j].id
  {
    EntryShape(lookup, items, i);
    EntryShape(lookup, items, j);
    if EntryId(items[i].level, i) == EntryId(items[j].level, j) {
      EntryIdInjective(items[i].level, i, items[j].level, j);
    }
  }

  /** Rows whose EXERCISE cell is NaN contribute nothing. */
  lemma DroppedRowsAreSkipped(columns: seq<string>, rows: seq<Row>, row: Row)
    requires Cell(row, "EXERCISE").None?
    ensures SheetItems(columns, rows + [row]) == SheetItems(columns, rows)
  {
    assert (rows + [row])[..|rows|] == rows;
  }

  /** Levels whose column is absent, or whose cell is NaN, contribute nothing. */
  lemma SkippedLevels(columns: seq<string>, row: Row, category: string, level: nat)
    requires LevelColumn(level) !in columns || Cell(row, LevelColumn(level)).None?
    ensures CellItems(columns, row, category, level) == []
  {
  }

  /** Only levels 1 to 10 are read. */
  lemma LevelsInRange(columns: seq<string>, row: Row, category: string, upTo: nat, k: nat)
    requires k < |LevelItems(columns, row, category, upTo)|
    ensures 1 <= LevelItems(columns, row, category, upTo)[k].level <= upTo
    decreases upTo
  {
    if upTo > 0 {
      var init := LevelItems(columns, row, category, upTo - 1);
      if k < |init| {
        LevelsInRange(columns, row, category, upTo - 1, k);
      }
    }
  }

  /** Every outcome that writes has as many entries as its final count. */
  lemma CountIsLength(source: Source)
    requires Ingestion(source).Written?
    ensures |Ingestion(source).knowledgeBase| == Ingestion(source).count
  {
  }
}
