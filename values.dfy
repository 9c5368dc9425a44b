/**
 * The values a deserialised cloud resource is made of (what Python's `json`
 * produces, plus the tuple the floating-IP normalizer builds), Python's
 * truthiness and its `int()` / `float()` coercions, and the lenient boolean
 * coercion `_to_bool` of shade/_normalize.py.
 */
module Values {

  /** A Python value as it appears in a resource dict. */
  datatype Value =
    | Null                                  // None
    | Bool(b: bool)
    | Int(i: int)
    | Real(r: real)                         // float, without rounding
    | Str(s: string)
    | Map(fields: map<string, Value>)       // a nested dict
    | List(items: seq<Value>)
    | Tuple(items: seq<Value>)

  /** The exceptions the normalizers can raise. */
  datatype Error =
    | MissingKey(key: string)               // KeyError from `d.pop(key)` or `d[key]`
    | NotANumber(value: Value)              // ValueError / TypeError from `int(v)` or `float(v)`
    | WrongType(key: string)                // AttributeError / TypeError on a nested value of the wrong kind

  datatype Result<+T> = Ok(value: T) | Err(error: Error) {
    predicate IsFailure() { Err? }
    function PropagateFailure<U>(): Result<U> requires Err? { Err(error) }
    function Extract(): T requires Ok? { value }
  }

  /** A canonical record, and every raw resource dict, is a string-keyed map. */
  type Record = map<string, Value>

  /** Python's `bool(v)`. */
  predicate Truthy(v: Value) {
    match v
    case Null => false
    case Bool(b) => b
    case Int(i) => i != 0
    case Real(r) => r != 0.0
    case Str(s) => s != ""
    case Map(m) => m != map[]
    case List(xs) => xs != []
    case Tuple(xs) => xs != []
  }

  // ---------------------------------------------------------------------
  // Case mapping (ASCII letters only)

  function LowerChar(c: char): (d: char)
    ensures !('A' <= d <= 'Z')
    ensures 'a' <= d <= 'z' <==> ('a' <= c <= 'z' || 'A' <= c <= 'Z')
  {
    if 'A' <= c <= 'Z' then (c as int + 32) as char else c
  }

  function UpperChar(c: char): (d: char)
    ensures !('a' <= d <= 'z')
  {
    if 'a' <= c <= 'z' then (c as int - 32) as char else c
  }

  /** `str.lower()` */
  function Lower(s: string): (t: string)
    ensures |t| == |s|
  {
    seq(|s|, i requires 0 <= i < |s| => LowerChar(s[i]))
  }

  /** `str.capitalize()`: the first character upper-cased, the rest lower-cased. */
  function Capitalize(s: string): (t: string)
    ensures |t| == |s|
  {
    if s == [] then [] else [UpperChar(s[0])] + Lower(s[1..])
  }

  lemma LowerIdempotent(s: string)
    ensures Lower(Lower(s)) == Lower(s)
  {
    forall i | 0 <= i < |s| ensures Lower(Lower(s))[i] == Lower(s)[i] {
      assert LowerChar(LowerChar(s[i])) == LowerChar(s[i]);
    }
  }

  /** The capitalised lower-case form of s is "True" exactly when s lower-cases to "true". */
  lemma CapitalizedTrue(s: string)
    ensures Capitalize(Lower(s)) == "True" <==> Lower(s) == "true"
  {
    var t := Lower(s);
    if |t| == 4 {
      assert Lower(t[1..]) == t[1..] by {
        forall i | 0 <= i < 3 ensures Lower(t[1..])[i] == t[1..][i] {
          assert t[1..][i] == t[i + 1] == LowerChar(s[i + 1]);
        }
      }
      assert Capitalize(t) == [UpperChar(t[0])] + t[1..];
      assert t[0] == LowerChar(s[0]);
      assert UpperChar(t[0]) == 'T' <==> t[0] == 't';
      var c := Capitalize(t);
      if c == "True" {
        assert c[0] == 'T' && c[1..] == "rue";
        assert t == [t[0]] + t[1..];
      }
      if t == "true" {
        assert c == [UpperChar('t')] + "rue";
      }
    }
  }

  /**
   * `_to_bool`: a non-empty string is compared, once lower-cased and
   * capitalised, with "True"; any other value is converted by truthiness.
   */
  function ToBool(v: Value): (b: bool)
    ensures !v.Str? ==> (b <==> Truthy(v))
    ensures v == Str("") ==> !b
  {
    match v
    case Str(s) => if s == "" then false else Capitalize(Lower(s)) == "True"
    case _ => Truthy(v)
  }

  /** A string is true exactly when it lower-cases to "true". */
  lemma ToBoolString(s: string)
    ensures ToBool(Str(s)) <==> Lower(s) == "true"
  {
    CapitalizedTrue(s);
  }

  // ---------------------------------------------------------------------
  // int() and float()

  predicate IsDigit(c: char) { '0' <= c <= '9' }

  /** The value of a (possibly empty) run of decimal digits. */
  function DigitsValue(s: string): (n: nat)
    requires forall i :: 0 <= i < |s| ==> IsDigit(s[i])
  {
    if s == [] then 0
    else
      var last := s[|s| - 1];
      assert IsDigit(last);
      DigitsValue(s[..|s| - 1]) * 10 + (last as int - '0' as int)
  }

  predicate AllDigits(s: string) {
    s != [] && forall i :: 0 <= i < |s| ==> IsDigit(s[i])
  }

  /** A decimal integer literal: an optional sign followed by one or more digits. */
  predicate IsDecimal(s: string) {
    AllDigits(s) || (|s| > 1 && (s[0] == '-' || s[0] == '+') && AllDigits(s[1..]))
  }

  function ParseDecimal(s: string): (n: int)
    requires IsDecimal(s)
  {
    if AllDigits(s) then DigitsValue(s)
    else if s[0] == '-' then -(DigitsValue(s[1..]) as int)
    else DigitsValue(s[1..])
  }

  /** The decimal digits of n, as `str(n)` writes a non-negative int. */
  function ShowNat(n: nat): (s: string)
    ensures AllDigits(s)
  {
    if n < 10 then ['0' + n as char] else ShowNat(n / 10) + ['0' + (n % 10) as char]
  }

  /** `str(n)` for any int. */
  function ShowInt(n: int): (s: string)
    ensures IsDecimal(s)
  {
    if n < 0 then "-" + ShowNat(-n) else ShowNat(n)
  }

  lemma {:induction false} DigitsOfShowNat(n: nat)
    ensures DigitsValue(ShowNat(n)) == n
  {
    var s := ShowNat(n);
    if n >= 10 {
      DigitsOfShowNat(n / 10);
      assert s[..|s| - 1] == ShowNat(n / 10);
    }
  }

  /** `int(str(n)) == n`: parsing undoes printing. */
  lemma ParseShowInt(n: int)
    ensures PyInt(Str(ShowInt(n))) == Ok(n)
  {
    if n < 0 {
      DigitsOfShowNat(-n);
      assert ShowInt(n)[1..] == ShowNat(-n);
      assert !IsDigit(ShowInt(n)[0]);
    } else {
      DigitsOfShowNat(n);
    }
  }

  /** `int(x)` truncates a float toward zero. */
  function Truncate(r: real): (n: int)
    ensures r >= 0.0 ==> n as real <= r < n as real + 1.0
    ensures r < 0.0 ==> n as real - 1.0 < r <= n as real
  {
    if r >= 0.0 then r.Floor else -((-r).Floor)
  }

  /**
   * Python's `int(v)`: booleans are 0 and 1, floats truncate, strings must
   * be decimal literals; None, dicts, lists and tuples raise.
   */
  function PyInt(v: Value): (r: Result<int>)
    ensures r.Err? <==> !(v.Bool? || v.Int? || v.Real? || (v.Str? && IsDecimal(v.s)))
    ensures r.Err? ==> r.error == NotANumber(v)
    ensures v.Int? ==> r == Ok(v.i)
    ensures v.Bool? ==> r == Ok(if v.b then 1 else 0)
  {
    match v
    case Bool(b) => Ok(if b then 1 else 0)
    case Int(i) => Ok(i)
    case Real(x) => Ok(Truncate(x))
    case Str(s) => if IsDecimal(s) then Ok(ParseDecimal(s)) else Err(NotANumber(v))
    case _ => Err(NotANumber(v))
  }

  /** Python's `float(v)`, the result as an exact real. */
  function PyFloat(v: Value): (r: Result<real>)
    ensures r.Err? <==> !(v.Bool? || v.Int? || v.Real? || (v.Str? && IsDecimal(v.s)))
    ensures r.Err? ==> r.error == NotANumber(v)
    ensures PyInt(v).Ok? && !v.Real? ==> r == Ok(PyInt(v).value as real)
  {
    match v
    case Bool(b) => Ok(if b then 1.0 else 0.0)
    case Int(i) => Ok(i as real)
    case Real(x) => Ok(x)
    case Str(s) => if IsDecimal(s) then Ok(ParseDecimal(s) as real) else Err(NotANumber(v))
    case _ => Err(NotANumber(v))
  }

  /** `int(v or 0)`: a falsy value gives 0. */
  function IntOrZero(v: Value): (r: Result<int>)
    ensures !Truthy(v) ==> r == Ok(0)
    ensures Truthy(v) ==> r == PyInt(v)
  {
    PyInt(if Truthy(v) then v else Int(0))
  }

  /** `float(v or 0)`: a falsy value gives 0.0. */
  function FloatOrZero(v: Value): (r: Result<real>)
    ensures !Truthy(v) ==> r == Ok(0.0)
    ensures Truthy(v) ==> r == PyFloat(v)
  {
    PyFloat(if Truthy(v) then v else Int(0))
  }
}
