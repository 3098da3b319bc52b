/**
 * The fragment of JavaScript value semantics the data grid relies on:
 * the values a row cell may hold, strict equality (`===`), truthiness,
 * conversion to string and `String.prototype.trim`.
 *
 * Floating point is not modelled: a number is finite (a real), NaN or an
 * infinity, which is exactly what `===` needs. Parsing and printing numbers
 * are foreign code and reach the model as the fields of a `Runtime`.
 */
module JsValues {

  datatype Number = Finite(r: real) | NaN | Infinity(negative: bool)

  /** `a === b` on numbers: NaN equals nothing, not even itself. */
  predicate NumberStrictEquals(a: Number, b: Number)
  {
    !a.NaN? && !b.NaN? && a == b
  }

  /** A scalar JSON-like value, as a row cell or a filter value holds it. */
  datatype Value = Undefined | Null | Bool(b: bool) | Num(n: Number) | Str(s: string)

  /** `a === b` */
  predicate StrictEquals(a: Value, b: Value)
  {
    match (a, b)
    case (Num(x), Num(y)) => NumberStrictEquals(x, y)
    case _ => a == b
  }

  /** Strict equality is symmetric and, away from NaN, it is plain equality. */
  lemma StrictEqualsCharacterized(a: Value, b: Value)
    ensures StrictEquals(a, b) == StrictEquals(b, a)
    ensures StrictEquals(a, b) <==> a == b && a != Num(NaN)
  {
  }

  /** `null` or `undefined` (the `value === null || value === undefined` test). */
  predicate IsNullish(v: Value)
  {
    v.Undefined? || v.Null?
  }

  /** JavaScript truthiness (`Boolean(v)`, `v ? … : …`, `v || …`). */
  predicate Truthy(v: Value)
  {
    match v
    case Undefined => false
    case Null => false
    case Bool(b) => b
    case Num(n) => n.Infinity? || (n.Finite? && n.r != 0.0)
    case Str(s) => s != ""
  }

  /** The falsy values are exactly `undefined`, `null`, `false`, `0` (of either sign), `NaN` and `""`. */
  lemma FalsyValues(v: Value)
    ensures !Truthy(v) <==>
      v == Undefined || v == Null || v == Bool(false) || v == Num(Finite(0.0)) || v == Num(NaN) || v == Str("")
  {
  }

  /** The host's number parsing and printing (`Number.parseFloat`, `Number.prototype.toString`). */
  datatype Runtime = Runtime(parseFloat: string -> Number, numberToString: Number -> string)

  /** `String(v)`, and `v.toString()` for the non-nullish values. */
  function ToJsString(rt: Runtime, v: Value): string
  {
    match v
    case Undefined => "undefined"
    case Null => "null"
    case Bool(b) => if b then "true" else "false"
    case Num(n) => rt.numberToString(n)
    case Str(s) => s
  }

  /** The characters `trim` removes: ECMAScript WhiteSpace and LineTerminator. */
  predicate IsWhitespace(c: char)
  {
    var n := c as int;
    n == 0x09 || n == 0x0A || n == 0x0B || n == 0x0C || n == 0x0D || n == 0x20 ||
    n == 0xA0 || n == 0x1680 || (0x2000 <= n <= 0x200A) || n == 0x2028 ||
    n == 0x2029 || n == 0x202F || n == 0x205F || n == 0x3000 || n == 0xFEFF
  }

  predicate AllWhitespace(s: string)
  {
    forall i :: 0 <= i < |s| ==> IsWhitespace(s[i])
  }

  /** Drops the leading whitespace of `s`. */
  function TrimStart(s: string): (r: string)
    ensures |r| <= |s| && r == s[|s| - |r|..]
    ensures forall i :: 0 <= i < |s| - |r| ==> IsWhitespace(s[i])
    ensures r != [] ==> !IsWhitespace(r[0])
  {
    if s != [] && IsWhitespace(s[0]) then
      var r := TrimStart(s[1..]);
      assert forall i :: 1 <= i < |s| ==> s[i] == s[1..][i - 1];
      r
    else s
  }

  /** Drops the trailing whitespace of `s`. */
  function TrimEnd(s: string): (r: string)
    ensures |r| <= |s| && r == s[..|r|]
    ensures forall i :: |r| <= i < |s| ==> IsWhitespace(s[i])
    ensures r != [] ==> !IsWhitespace(r[|r| - 1])
  {
    if s != [] && IsWhitespace(s[|s| - 1]) then
      var r := TrimEnd(s[..|s| - 1]);
      assert forall i :: 0 <= i < |s| - 1 ==> s[i] == s[..|s| - 1][i];
      r
    else s
  }

  /**
   * `s.trim()`: drops the leading and the trailing whitespace. What is left
   * starts and ends with a non-whitespace character, and nothing is left
   * exactly when `s` is all whitespace.
   */
  function Trim(s: string): (r: string)
    ensures |r| <= |s|
    ensures r != [] ==> !IsWhitespace(r[0]) && !IsWhitespace(r[|r| - 1])
    ensures r == [] <==> AllWhitespace(s)
  {
    TrimEmptyExactlyWhenBlank(s);
    TrimEnd(TrimStart(s))
  }

  lemma TrimEmptyExactlyWhenBlank(s: string)
    ensures TrimEnd(TrimStart(s)) == [] <==> AllWhitespace(s)
  {
    var t := TrimStart(s);
    var a := |s| - |t|;
    if t != [] {
      assert t[0] == s[a];
      assert !AllWhitespace(s);
      assert IsWhitespace(t[0]) || TrimEnd(t) != [];
    } else {
      assert AllWhitespace(s);
    }
  }
}
