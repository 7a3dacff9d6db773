/**
 The Python 2 values that reach the client's strict type checks. Python's
 truthiness, `isinstance(v, int)` (which holds of `True` and `False` and
 not of a `long`), `isinstance(v, float)`, the outcome of the conversions
 `int(v)` and `float(v)`, and the comparison `>` are defined here once.
 */
module PyValues {

  import opened Errors
  import opened Text

  datatype PyValue =
    | PyNone
    | PyBool(b: bool)
    | PyInt(i: int)      // an `int`, or a `long` when outside the machine range
    | PyFloat(x: real)
    | PyStr(s: string)

  /** `bool(v)` */
  predicate Truthy(v: PyValue) {
    match v
    case PyNone => false
    case PyBool(b) => b
    case PyInt(i) => i != 0
    case PyFloat(x) => x != 0.0
    case PyStr(s) => s != ""
  }

  /** `sys.maxint` on a 64-bit platform: larger integers are of type `long`. */
  const MaxInt: int := 0x7FFF_FFFF_FFFF_FFFF

  /** `isinstance(v, int)`: `bool` is a subclass of `int`, and a `long` is not an `int`. */
  predicate IsInt(v: PyValue) {
    v.PyBool? || (v.PyInt? && -MaxInt - 1 <= v.i <= MaxInt)
  }

  /** `isinstance(v, float)`: an integer-valued number is not a float. */
  predicate IsFloat(v: PyValue) {
    v.PyFloat?
  }

  /** How a call `int(v)` or `float(v)` ends. */
  datatype Conversion = Converted | RaisesTypeError | RaisesValueError

  /** An optional sign followed by at least one decimal digit. */
  predicate IntLiteral(s: string) {
    var body := if |s| > 0 && (s[0] == '+' || s[0] == '-') then s[1..] else s;
    |body| >= 1 && AllDigits(body)
  }

  /** An optional sign, then digits with at most one decimal point, and at least one digit. */
  predicate FloatLiteral(s: string) {
    var body := if |s| > 0 && (s[0] == '+' || s[0] == '-') then s[1..] else s;
    if '.' in body then
      var i := FirstIndex(body, '.');
      |body| >= 2 && AllDigits(body[..i]) && AllDigits(body[i + 1..])
    else
      |body| >= 1 && AllDigits(body)
  }

  /** The outcome of `int(v)`. */
  function ToInt(v: PyValue): (c: Conversion)
    ensures c == RaisesTypeError <==> v.PyNone?
    ensures v.PyStr? ==> (c == Converted <==> IntLiteral(v.s))
    ensures !v.PyStr? && !v.PyNone? ==> c == Converted
  {
    match v
    case PyNone => RaisesTypeError
    case PyStr(s) => if IntLiteral(s) then Converted else RaisesValueError
    case _ => Converted
  }

  /** The outcome of `float(v)`. */
  function ToFloat(v: PyValue): (c: Conversion)
    ensures c == RaisesTypeError <==> v.PyNone?
    ensures v.PyStr? ==> (c == Converted <==> FloatLiteral(v.s))
    ensures !v.PyStr? && !v.PyNone? ==> c == Converted
  {
    match v
    case PyNone => RaisesTypeError
    case PyStr(s) => if FloatLiteral(s) then Converted else RaisesValueError
    case _ => Converted
  }

  /** Every string `int` accepts, `float` accepts too. */
  lemma IntLiteralIsFloatLiteral(s: string)
    requires IntLiteral(s)
    ensures FloatLiteral(s)
  {
    var body := if |s| > 0 && (s[0] == '+' || s[0] == '-') then s[1..] else s;
    assert forall k :: 0 <= k < |body| ==> IsDigit(body[k]);
    assert '.' !in body;
  }

  /** `bool`, `int` and `float` values are numbers and compare as such. */
  predicate IsNumber(v: PyValue) {
    v.PyBool? || v.PyInt? || v.PyFloat?
  }

  /** The numeric value of a number (`True` is 1). */
  function Num(v: PyValue): real
    requires IsNumber(v)
  {
    match v
    case PyBool(b) => if b then 1.0 else 0.0
    case PyInt(i) => i as real
    case PyFloat(x) => x
  }

  /** `a < b` on texts: code point by code point, a proper prefix first. */
  predicate TextLess(a: string, b: string) {
    if |a| == 0 then |b| > 0
    else if |b| == 0 then false
    else if a[0] != b[0] then a[0] < b[0]
    else TextLess(a[1..], b[1..])
  }

  /** Python 2 orders values of different kinds by kind: None first, then numbers, then texts. */
  function Rank(v: PyValue): nat {
    if v.PyNone? then 0 else if IsNumber(v) then 1 else 2
  }

  /**
   `a > b` as Python 2 evaluates it: it never raises. Numbers compare by
   value and texts code point by code point; otherwise the kinds decide,
   so every text is greater than every number.
   */
  function Greater(a: PyValue, b: PyValue): (r: bool)
    ensures IsNumber(a) && IsNumber(b) ==> (r <==> Num(a) > Num(b))
    ensures a.PyStr? && b.PyStr? ==> (r <==> TextLess(b.s, a.s))
    ensures Rank(a) != Rank(b) ==> (r <==> Rank(a) > Rank(b))
  {
    if Rank(a) != Rank(b) then Rank(a) > Rank(b)
    else if IsNumber(a) then Num(a) > Num(b)
    else if a.PyStr? then TextLess(b.s, a.s)
    else false
  }

  /** `>` is a strict order: never both ways. */
  lemma GreaterAsymmetric(a: PyValue, b: PyValue)
    ensures !(Greater(a, b) && Greater(b, a))
  {
    if a.PyStr? && b.PyStr? {
      TextLessAsymmetric(a.s, b.s);
    }
  }

  /**
   `>` is total up to equal values: when neither value is greater, they
   are of the same kind and are the same number or the same text.
   */
  lemma GreaterTotal(a: PyValue, b: PyValue)
    ensures !Greater(a, b) && !Greater(b, a) ==>
              Rank(a) == Rank(b)
              && (IsNumber(a) ==> Num(a) == Num(b))
              && (a.PyStr? ==> a.s == b.s)
  {
    if a.PyStr? && b.PyStr? && a.s != b.s {
      TextLessTotal(a.s, b.s);
    }
  }

  /** Text order is a strict order: never both ways. */
  lemma {:induction false} TextLessAsymmetric(a: string, b: string)
    ensures !(TextLess(a, b) && TextLess(b, a))
    decreases |a|
  {
    if |a| > 0 && |b| > 0 && a[0] == b[0] {
      TextLessAsymmetric(a[1..], b[1..]);
    }
  }

  /** Distinct texts are ordered one way or the other. */
  lemma {:induction false} TextLessTotal(a: string, b: string)
    requires a != b
    ensures TextLess(a, b) || TextLess(b, a)
    decreases |a|
  {
    if |a| > 0 && |b| > 0 && a[0] == b[0] {
      TextLessTotal(a[1..], b[1..]);
    }
  }
}
