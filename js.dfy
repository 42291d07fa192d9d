/**
 * JavaScript values as the front-end code sees them, and the few language
 * primitives it leans on: truthiness and `||`, property reads and the
 * TypeError thrown by reading a property of `undefined` or `null`, object
 * spread, `String(v)`, `parseInt`, strict equality against a number, and
 * the `JSON.stringify` / `JSON.parse` round trip used by `sessionStorage`.
 *
 * Numbers are integers or NaN; fractional numbers are not modelled.
 * Objects are ordered dictionaries in insertion order, as JavaScript keeps
 * them for keys that are not integer-like; integer-like keys are not moved
 * to the front.
 */
module Js {
  import opened Outcomes
  import opened Dicts
  import opened Text

  datatype JsValue =
    | Undefined
    | Null
    | Bool(b: bool)
    | Int(i: int)
    | NaN
    | Str(s: string)
    | Arr(items: seq<JsValue>)
    | Obj(fields: Dict<JsValue>)

  /** `Boolean(v)`: the falsy values are undefined, null, false, 0, NaN and "". */
  predicate Truthy(v: JsValue)
  {
    match v
    case Undefined => false
    case Null => false
    case Bool(b) => b
    case Int(i) => i != 0
    case NaN => false
    case Str(s) => s != []
    case Arr(_) => true
    case Obj(_) => true
  }

  /** `a || b`. */
  function Or(a: JsValue, b: JsValue): JsValue
  {
    if Truthy(a) then a else b
  }

  predicate Nullish(v: JsValue)
  {
    v.Undefined? || v.Null?
  }

  /** An `Error` object as a `catch` clause receives it: its own `message` property. */
  function ErrorValue(message: string): JsValue
  {
    Obj([("message", Str(message))])
  }

  /** The TypeError V8 throws for `v[k]` when `v` is undefined or null. */
  function ReadError(v: JsValue, k: string): JsValue
  {
    ErrorValue(ReadErrorMessage(v, k))
  }

  function ReadErrorMessage(v: JsValue, k: string): string
  {
    "Cannot read properties of " + (if v.Null? then "null" else "undefined") + " (reading '" + k + "')"
  }

  /**
   * `v[k]` for a value that is not nullish: an object's own property, or
   * undefined.  Properties that strings, arrays and `Object.prototype`
   * provide are not modelled.
   */
  function Prop(v: JsValue, k: string): (r: JsValue)
    ensures !v.Obj? ==> r == Undefined
    ensures v.Obj? && k !in Keys(v.fields) ==> r == Undefined
  {
    if v.Obj? then Get(v.fields, k, Undefined) else Undefined
  }

  /** `v[k]`, throwing as JavaScript does when `v` is undefined or null. */
  function Member(v: JsValue, k: string): (r: Result<JsValue, JsValue>)
    ensures r.Err? <==> Nullish(v)
    ensures r.Ok? ==> r.value == Prop(v, k)
  {
    if Nullish(v) then Err(ReadError(v, k)) else Ok(Prop(v, k))
  }

  /** The entries `{...v}` contributes to an object literal (own properties of objects only). */
  function Spread(v: JsValue): Dict<JsValue>
  {
    if v.Obj? then v.fields else []
  }

  /** `String(v)`, and the text a template literal inserts for `${v}`. */
  function ToString(v: JsValue): string
    decreases v
  {
    match v
    case Undefined => "undefined"
    case Null => "null"
    case Bool(b) => if b then "true" else "false"
    case Int(i) => IntToString(i)
    case NaN => "NaN"
    case Str(s) => s
    case Arr(items) => ItemsToString(items)
    case Obj(_) => "[object Object]"
  }

  /** `items.join(",")`, where undefined and null elements are written as "". */
  function ItemsToString(items: seq<JsValue>): string
    decreases items
  {
    if items == [] then ""
    else
      var first := if Nullish(items[0]) then "" else ToString(items[0]);
      if |items| == 1 then first else first + "," + ItemsToString(items[1..])
  }

  /** `v === n` where `n` is a number: NaN equals nothing, not even itself. */
  predicate StrictEqualsNumber(v: JsValue, n: JsValue)
  {
    v.Int? && n.Int? && v.i == n.i
  }

  // ---------------------------------------------------------------- parseInt

  predicate IsHexDigit(c: char)
  {
    IsDigit(c) || ('a' <= c <= 'f') || ('A' <= c <= 'F')
  }

  function HexDigitValue(c: char): nat
    requires IsHexDigit(c)
  {
    if IsDigit(c) then c as int - '0' as int
    else if 'a' <= c <= 'f' then c as int - 'a' as int + 10
    else c as int - 'A' as int + 10
  }

  function HexValue(s: string): nat
    requires forall i :: 0 <= i < |s| ==> IsHexDigit(s[i])
  {
    if s == [] then 0 else HexValue(s[..|s| - 1]) * 16 + HexDigitValue(s[|s| - 1])
  }

  /** The longest prefix of `s` whose characters all satisfy `ok`. */
  function Span(s: string, ok: char -> bool): (r: string)
    ensures |r| <= |s| && r == s[..|r|]
    ensures forall i :: 0 <= i < |r| ==> ok(r[i])
    ensures |r| < |s| ==> !ok(s[|r|])
  {
    if s == [] || !ok(s[0]) then [] else [s[0]] + Span(s[1..], ok)
  }

  /** The radix argument: `parseInt(x, 10)` or `parseInt(x)` (which also accepts a "0x" prefix). */
  datatype Radix = Decimal | Unspecified

  /** The magnitude `parseInt` reads from unsigned text: the longest run of digits, if there is one. */
  function ReadDigits(unsigned: string, radix: Radix): (r: Option<nat>)
  {
    if radix == Unspecified && |unsigned| >= 2 && unsigned[0] == '0' && (unsigned[1] == 'x' || unsigned[1] == 'X') then
      var digits := Span(unsigned[2..], IsHexDigit);
      if digits == [] then None else Some(HexValue(digits))
    else
      var digits := Span(unsigned, IsDigit);
      if digits == [] then None else Some(DigitsValue(digits))
  }

  /**
   * `parseInt(v, radix)`: convert to a string, skip leading whitespace, read
   * an optional sign, then the longest run of digits; no digits gives NaN.
   */
  function ParseInt(v: JsValue, radix: Radix): (r: JsValue)
    ensures r.Int? || r.NaN?
  {
    var s := TrimStart(ToString(v), JsSpace);
    ParseSigned(s, radix)
  }

  /** `parseInt` on text without leading whitespace. */
  function ParseSigned(s: string, radix: Radix): (r: JsValue)
    ensures r.Int? || r.NaN?
  {
    var signed := s != [] && (s[0] == '-' || s[0] == '+');
    match ReadDigits(if signed then s[1..] else s, radix)
    case None => NaN
    case Some(n) => var m: int := n; Int(if signed && s[0] == '-' then -m else m)
  }

  /** A printed natural number never starts with "0x": it is "0" or starts with a non-zero digit. */
  lemma NatToStringNoLeadingZero(n: nat)
    ensures |NatToString(n)| >= 2 ==> NatToString(n)[0] != '0'
  {
    if NatToString(n)[0] == '0' {
      assert NatToString(0) == "0";
    }
  }

  /** Trimming leaves text that already starts with a non-space character alone. */
  lemma TrimStartAtNonSpace(s: string)
    requires s != [] && !JsSpace(s[0])
    ensures TrimStart(s, JsSpace) == s
  {
  }

  /** The digits of a natural number read back as that number, with either radix. */
  lemma ReadDigitsOfNat(n: nat, radix: Radix)
    ensures ReadDigits(NatToString(n), radix) == Some(n)
  {
    var digits := NatToString(n);
    NatToStringRoundTrip(n);
    NatToStringNoLeadingZero(n);
    SpanOfDigits(digits, []);
    assert digits + [] == digits;
  }

  /** Printing an integer and parsing it back, with either radix, gives the integer. */
  lemma ParseIntPrintsBack(i: int, radix: Radix)
    ensures ParseInt(Int(i), radix) == Int(i)
  {
    var n: nat := if i < 0 then -i else i;
    var digits := NatToString(n);
    ReadDigitsOfNat(n, radix);
    var s := IntToString(i);
    assert ToString(Int(i)) == s;
    if i < 0 {
      assert s == "-" + digits;
      assert s[1..] == digits;
    } else {
      assert s == digits;
      assert IsDigit(s[0]);
    }
    TrimStartAtNonSpace(s);
    assert ParseSigned(s, radix) == Int(i);
  }

  /** `parseInt` reads the leading digits of a string and ignores what follows them. */
  lemma ParseIntReadsLeadingDigits(digits: string, rest: string)
    requires digits != [] && AllDigits(digits)
    requires rest == [] || !IsDigit(rest[0])
    ensures ParseInt(Str(digits + rest), Decimal) == Int(DigitsValue(digits))
  {
    var s := digits + rest;
    assert s[0] == digits[0];
    assert IsDigit(s[0]);
    TrimStartAtNonSpace(s);
    SpanOfDigits(digits, rest);
    var value := DigitsValue(digits);
    assert ReadDigits(s, Decimal) == Some(value);
    assert ParseSigned(s, Decimal) == Int(value);
    assert ToString(Str(s)) == s;
  }

  lemma SpanOfDigits(digits: string, rest: string)
    requires AllDigits(digits)
    requires rest == [] || !IsDigit(rest[0])
    ensures Span(digits + rest, IsDigit) == digits
  {
    if digits != [] {
      assert (digits + rest)[1..] == digits[1..] + rest;
      SpanOfDigits(digits[1..], rest);
    }
  }

  /** Text that does not begin (after whitespace) with a sign or a digit parses to NaN. */
  lemma ParseIntRejectsNonNumeric(s: string, radix: Radix)
    requires s != [] && !JsSpace(s[0]) && !IsDigit(s[0]) && s[0] != '-' && s[0] != '+'
    ensures ParseInt(Str(s), radix) == NaN
  {
    assert TrimStart(s, JsSpace) == s;
  }

  /** Without a radix, a "0x" prefix selects hexadecimal: `parseInt("0x1f")` is 31. */
  lemma ParseIntHexPrefix()
    ensures ParseInt(Str("0x1f"), Unspecified) == Int(31)
    ensures ParseInt(Str("0x1f"), Decimal) == Int(0)
  {
    var s := "0x1f";
    assert !JsSpace(s[0]);
    assert TrimStart(s, JsSpace) == s;
    assert s[2..] == "1f";
    assert Span("1f", IsHexDigit) == "1f";
    assert HexValue("1f") == HexValue("1") * 16 + 15;
    assert Span(s, IsDigit) == "0";
    assert DigitsValue("0") == 0;
  }

  // ------------------------------------------------------------------- JSON

  /** A value `JSON.parse` can produce: no undefined and no NaN anywhere. */
  predicate IsJson(v: JsValue)
    decreases v
  {
    match v
    case Undefined => false
    case NaN => false
    case Arr(items) => ItemsAreJson(items)
    case Obj(fields) => FieldsAreJson(fields)
    case _ => true
  }

  predicate ItemsAreJson(items: seq<JsValue>)
    decreases items
  {
    items == [] || (IsJson(items[0]) && ItemsAreJson(items[1..]))
  }

  predicate FieldsAreJson(fields: Dict<JsValue>)
    decreases fields
  {
    fields == [] || (assert fields[0].1 < fields[0]; IsJson(fields[0].1) && FieldsAreJson(fields[1..]))
  }

  /**
   * `JSON.parse(JSON.stringify(v))` for a value nested in an array or
   * object: NaN and undefined array elements become null, and object
   * properties whose value is undefined disappear.
   */
  function Normalize(v: JsValue): JsValue
    decreases v
  {
    match v
    case Undefined => Null
    case NaN => Null
    case Arr(items) => Arr(NormalizeItems(items))
    case Obj(fields) => Obj(NormalizeFields(fields))
    case _ => v
  }

  function NormalizeItems(items: seq<JsValue>): (r: seq<JsValue>)
    ensures |r| == |items|
    decreases items
  {
    if items == [] then [] else [Normalize(items[0])] + NormalizeItems(items[1..])
  }

  function NormalizeFields(fields: Dict<JsValue>): Dict<JsValue>
    decreases fields
  {
    if fields == [] then []
    else if fields[0].1.Undefined? then NormalizeFields(fields[1..])
    else assert fields[0].1 < fields[0]; [(fields[0].0, Normalize(fields[0].1))] + NormalizeFields(fields[1..])
  }

  /** Serialising and parsing again always yields JSON data. */
  lemma {:induction false} NormalizeIsJson(v: JsValue)
    ensures IsJson(Normalize(v))
    decreases v
  {
    match v
    case Arr(items) => NormalizeItemsAreJson(items);
    case Obj(fields) => NormalizeFieldsAreJson(fields);
    case _ =>
  }

  lemma {:induction false} NormalizeItemsAreJson(items: seq<JsValue>)
    ensures ItemsAreJson(NormalizeItems(items))
    decreases items
  {
    if items != [] {
      NormalizeIsJson(items[0]);
      NormalizeItemsAreJson(items[1..]);
      assert NormalizeItems(items)[1..] == NormalizeItems(items[1..]);
    }
  }

  lemma {:induction false} NormalizeFieldsAreJson(fields: Dict<JsValue>)
    ensures FieldsAreJson(NormalizeFields(fields))
    decreases fields
  {
    if fields != [] {
      NormalizeFieldsAreJson(fields[1..]);
      if !fields[0].1.Undefined? {
        assert fields[0].1 < fields[0];
        NormalizeIsJson(fields[0].1);
        assert NormalizeFields(fields)[1..] == NormalizeFields(fields[1..]);
      }
    }
  }

  /** JSON data survives serialising and parsing unchanged. */
  lemma {:induction false} NormalizeKeepsJson(v: JsValue)
    requires IsJson(v)
    ensures Normalize(v) == v
    decreases v
  {
    match v
    case Arr(items) => NormalizeKeepsItems(items);
    case Obj(fields) => NormalizeKeepsFields(fields);
    case _ =>
  }

  lemma {:induction false} NormalizeKeepsItems(items: seq<JsValue>)
    requires ItemsAreJson(items)
    ensures NormalizeItems(items) == items
    decreases items
  {
    if items != [] {
      NormalizeKeepsJson(items[0]);
      NormalizeKeepsItems(items[1..]);
    }
  }

  lemma {:induction false} NormalizeKeepsFields(fields: Dict<JsValue>)
    requires FieldsAreJson(fields)
    ensures NormalizeFields(fields) == fields
    decreases fields
  {
    if fields != [] {
      assert fields[0].1 < fields[0];
      NormalizeKeepsJson(fields[0].1);
      NormalizeKeepsFields(fields[1..]);
      assert fields == [(fields[0].0, fields[0].1)] + fields[1..];
    }
  }

  /**
   * With distinct keys, serialising an object drops exactly the properties
   * whose value is undefined and normalises the others.
   */
  lemma {:induction false} NormalizeFieldsLookup(fields: Dict<JsValue>, k: string)
    requires Distinct(Keys(fields))
    ensures Lookup(NormalizeFields(fields), k)
      == match Lookup(fields, k)
         case None => None
         case Some(v) => if v.Undefined? then None else Some(Normalize(v))
    decreases fields
  {
    if fields != [] {
      assert Keys(fields) == [fields[0].0] + Keys(fields[1..]);
      DistinctTail(Keys(fields));
      NormalizeFieldsLookup(fields[1..], k);
      if fields[0].0 == k && fields[0].1.Undefined? {
        assert k !in Keys(fields[1..]);
      }
    }
  }

  /**
   * A `sessionStorage` entry: either text `JSON.stringify` produced, which
   * `JSON.parse` reads back as `doc`, or some other text that `JSON.parse`
   * rejects (including the empty string).
   */
  datatype StoredText = Json(doc: JsValue) | Garbled(raw: string)

  /** `JSON.stringify(v)` as stored by `setItem` (which turns undefined into "undefined"). */
  function Stringify(v: JsValue): (t: StoredText)
    ensures t.Json? ==> IsJson(t.doc)
  {
    if v.Undefined? then Garbled("undefined") else (NormalizeIsJson(v); Json(Normalize(v)))
  }

  /**
   * `JSON.parse(text)`, throwing a SyntaxError for text it rejects. The
   * engine's message quotes the offending text; the fixed message here
   * stands in for it.
   */
  function Parse(t: StoredText): (r: Result<JsValue, JsValue>)
    ensures r.Ok? <==> t.Json?
  {
    match t
    case Json(doc) => Ok(doc)
    case Garbled(raw) => Err(ErrorValue("Unexpected token in JSON"))
  }

  /** An object is stored as its normalised properties. */
  lemma StringifyObject(fields: Dict<JsValue>)
    ensures Stringify(Obj(fields)) == Json(Obj(NormalizeFields(fields)))
  {
  }

  /** Storing JSON data and reading it back returns the same data. */
  lemma StringifyParseRoundTrip(v: JsValue)
    requires IsJson(v)
    ensures Parse(Stringify(v)) == Ok(v)
  {
    NormalizeKeepsJson(v);
  }
}
