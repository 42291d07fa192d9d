/**
 * The Python values the back end passes around (JSON-shaped: None, bool,
 * int, str, list, dict) and the parts of Python's semantics the modelled code
 * relies on: truthiness, `<` between values and comparisons against integers
 * (which raise TypeError on operands that do not compare), `str()` and the
 * exceptions it raises.
 */
module Py {
  import opened Outcomes
  import opened Dicts
  import opened Text

  datatype PyValue =
    | PyNone
    | PyBool(b: bool)
    | PyInt(i: int)
    | PyStr(s: string)
    | PyList(elems: seq<PyValue>)
    | PyDict(entries: Dict<PyValue>)

  datatype ErrorKind = AttributeError | TypeError | KeyError | FileNotFoundError

  /** A raised exception: its class and `str(e)`. */
  datatype PyError = PyError(kind: ErrorKind, message: string)

  /** `type(v).__name__`. */
  function TypeName(v: PyValue): string
  {
    match v
    case PyNone => "NoneType"
    case PyBool(_) => "bool"
    case PyInt(_) => "int"
    case PyStr(_) => "str"
    case PyList(_) => "list"
    case PyDict(_) => "dict"
  }

  /** `bool(v)`. */
  predicate Truthy(v: PyValue)
  {
    match v
    case PyNone => false
    case PyBool(b) => b
    case PyInt(i) => i != 0
    case PyStr(s) => s != ""
    case PyList(xs) => xs != []
    case PyDict(d) => d != []
  }

  /** `bool` is a subclass of `int`, so both take part in arithmetic and comparisons. */
  predicate IsNumber(v: PyValue)
  {
    v.PyBool? || v.PyInt?
  }

  function NumberValue(v: PyValue): int
    requires IsNumber(v)
  {
    if v.PyBool? then (if v.b then 1 else 0) else v.i
  }

  /** The AttributeError raised by `v.<name>` on a value that lacks the attribute. */
  function NoAttribute(v: PyValue, name: string): PyError
  {
    PyError(AttributeError, "'" + TypeName(v) + "' object has no attribute '" + name + "'")
  }

  /** The message Python gives for `.items()` on an integer. */
  lemma IntHasNoItems(v: PyValue)
    requires v.PyInt?
    ensures NoAttribute(v, "items") == PyError(AttributeError, "'int' object has no attribute 'items'")
  {
    assert "'" + TypeName(v) == "'int";
    assert "'int" + "' object has no attribute '" == "'int' object has no attribute '";
    assert "'int' object has no attribute '" + "items" + "'" == "'int' object has no attribute 'items'";
  }

  /** The TypeError raised by `a <op> b` on operands that do not compare. */
  function NotComparable(op: string, a: PyValue, b: PyValue): PyError
  {
    PyError(TypeError, "'" + op + "' not supported between instances of '" + TypeName(a) + "' and '" + TypeName(b) + "'")
  }

  /** The pairs `<` orders: two numbers (a bool counts as an int), or two strings. */
  predicate Comparable(a: PyValue, b: PyValue)
  {
    (IsNumber(a) && IsNumber(b)) || (a.PyStr? && b.PyStr?)
  }

  /**
   * `a < b`: numbers by value, strings by code point; any other pair of the
   * values modelled here raises the TypeError naming both operands' types.
   */
  function Less(a: PyValue, b: PyValue): (r: Result<bool, PyError>)
    ensures r.Ok? <==> Comparable(a, b)
    ensures r.Err? ==> r.error == NotComparable("<", a, b)
  {
    if IsNumber(a) && IsNumber(b) then Ok(NumberValue(a) < NumberValue(b))
    else if a.PyStr? && b.PyStr? then Ok(StrLess(a.s, b.s))
    else Err(NotComparable("<", a, b))
  }

  /** `a < b` evaluates to True. */
  predicate Below(a: PyValue, b: PyValue)
  {
    Less(a, b) == Ok(true)
  }

  /**
   * `<` is a strict order on the values it compares, total up to equal
   * numbers (True and 1 are neither below the other), and `Comparable`
   * groups the values into numbers and strings.
   */
  lemma LessIsStrictOrder(a: PyValue, b: PyValue, c: PyValue)
    ensures !Below(a, a)
    ensures Below(a, b) ==> !Below(b, a)
    ensures Below(a, b) && Below(b, c) ==> Below(a, c)
    ensures Comparable(a, b) && Comparable(b, c) ==> Comparable(a, c)
    ensures Comparable(a, b) ==>
      Below(a, b) || Below(b, a) || (IsNumber(a) && NumberValue(a) == NumberValue(b)) || a == b
  {
    if a.PyStr? {
      StrLessIrreflexive(a.s);
    }
    if a.PyStr? && b.PyStr? {
      StrLessAsymmetric(a.s, b.s);
      StrLessTotal(a.s, b.s);
      if c.PyStr? && StrLess(a.s, b.s) && StrLess(b.s, c.s) {
        StrLessTransitive(a.s, b.s, c.s);
      }
    }
  }

  /** `v > n` for an integer literal `n`. */
  function Greater(v: PyValue, n: int): (r: Result<bool, PyError>)
    ensures r.Ok? <==> IsNumber(v)
    ensures r.Ok? ==> r.value == (NumberValue(v) > n)
  {
    if IsNumber(v) then Ok(NumberValue(v) > n) else Err(NotComparable(">", v, PyInt(n)))
  }

  /** `v <= n` for an integer literal `n`. */
  function AtMost(v: PyValue, n: int): (r: Result<bool, PyError>)
    ensures r.Ok? <==> IsNumber(v)
    ensures r.Ok? ==> r.value == (NumberValue(v) <= n)
  {
    if IsNumber(v) then Ok(NumberValue(v) <= n) else Err(NotComparable("<=", v, PyInt(n)))
  }

  /** `v == n` for an integer literal `n`; equality never raises. */
  predicate EqualsInt(v: PyValue, n: int)
  {
    IsNumber(v) && NumberValue(v) == n
  }

  /** `repr(s)` for a string, with the quote choice Python makes. */
  function ReprStr(s: string): string
  {
    if '\'' in s && '"' !in s then "\"" + EscapeRepr(s, '"') + "\""
    else "'" + EscapeRepr(s, '\'') + "'"
  }

  function EscapeRepr(s: string, quote: char): string
  {
    if s == [] then ""
    else
      var c := s[0];
      var e := if c == '\\' then "\\\\"
               else if c == quote then ['\\', quote]
               else if c == '\n' then "\\n"
               else if c == '\r' then "\\r"
               else if c == '\t' then "\\t"
               else [c];
      e + EscapeRepr(s[1..], quote)
  }

  /** A character `repr` prints as itself. */
  predicate Plain(c: char)
  {
    c != '\\' && c != '\'' && c != '"' && c != '\n' && c != '\r' && c != '\t'
  }

  /** The repr of a string without quotes, backslashes or control escapes is the string in single quotes. */
  lemma {:induction false} PlainRepr(s: string)
    requires forall i :: 0 <= i < |s| ==> Plain(s[i])
    ensures EscapeRepr(s, '\'') == s
    ensures ReprStr(s) == "'" + s + "'"
  {
    if s != [] {
      PlainRepr(s[1..]);
    }
  }

  /** `repr(v)`. */
  function Repr(v: PyValue): string
  {
    match v
    case PyNone => "None"
    case PyBool(b) => if b then "True" else "False"
    case PyInt(i) => IntToString(i)
    case PyStr(s) => ReprStr(s)
    case PyList(xs) => "[" + Join(seq(|xs|, k requires 0 <= k < |xs| => Repr(xs[k])), ", ") + "]"
    case PyDict(d) =>
      "{" + Join(seq(|d|, k requires 0 <= k < |d| => ReprStr(d[k].0) + ": " + Repr(d[k].1)), ", ") + "}"
  }

  /** `str(v)`: the string itself for a str, `repr` for everything else. */
  function Str(v: PyValue): (r: string)
    ensures v.PyStr? ==> r == v.s
    ensures v.PyInt? ==> r == IntToString(v.i)
  {
    if v.PyStr? then v.s else Repr(v)
  }

  /** Field access `d[k]` on a dict: KeyError when the key is absent, its `str` being the key's repr. */
  function Subscript(d: Dict<PyValue>, k: string): (r: Result<PyValue, PyError>)
    ensures r.Ok? <==> k in Keys(d)
    ensures r.Ok? ==> Lookup(d, k) == Some(r.value)
  {
    match Lookup(d, k)
    case Some(v) => Ok(v)
    case None => Err(PyError(KeyError, ReprStr(k)))
  }
}
