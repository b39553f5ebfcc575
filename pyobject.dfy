/** The Python values that flow between the stages, and the `float()` / `int()` conversions applied to them. */
module PyObject {
  import opened Outcome
  import opened Strings

  /** A Python value. `PyNum` stands for both `int` and `float` (exact, no rounding). */
  datatype PyObj =
    | PyNum(r: real)
    | PyStr(s: string)
    | PyBool(b: bool)
    | PyNone
    | PyList(items: seq<PyObj>)
    | PyTuple(items: seq<PyObj>)
    | PyDict(entries: map<string, PyObj>)

  /** A note, chord or drum event: a dictionary from field names to values. */
  type Event = map<string, PyObj>

  /** Python's `int(x)` on a float: truncation toward zero. */
  function Trunc(x: real): (n: int)
    ensures x >= 0.0 ==> n as real <= x < n as real + 1.0
    ensures x < 0.0 ==> n as real - 1.0 < x <= n as real
  {
    if x >= 0.0 then x.Floor else -((-x).Floor)
  }

  predicate AllDigits(s: string) { forall i :: 0 <= i < |s| ==> IsDigit(s[i]) }

  function Pow10(n: nat): (p: nat)
    ensures p >= 1
  {
    if n == 0 then 1 else 10 * Pow10(n - 1)
  }

  /** The unsigned part of a decimal literal: digits, optionally a point and more digits, at least one digit. */
  function ParseUnsignedDecimal(s: string): Option<real> {
    if exists i :: 0 <= i < |s| && s[i] == '.' then
      var i :| 0 <= i < |s| && s[i] == '.';
      var whole, frac := s[..i], s[i + 1..];
      if AllDigits(whole) && AllDigits(frac) && |whole| + |frac| >= 1 then
        Some(DigitsValue(whole) as real + DigitsValue(frac) as real / Pow10(|frac|) as real)
      else None
    else if AllDigits(s) && |s| >= 1 then Some(DigitsValue(s) as real)
    else None
  }

  /** `float(s)` for a string: an optional sign and a plain decimal literal. */
  function ParseFloat(s: string): Option<real> {
    if |s| >= 1 && (s[0] == '-' || s[0] == '+') then
      match ParseUnsignedDecimal(s[1..])
      case Some(x) => Some(if s[0] == '-' then -x else x)
      case None => None
    else ParseUnsignedDecimal(s)
  }

  /** `int(s)` for a string: an optional sign and decimal digits. */
  function ParseInt(s: string): Option<int> {
    if |s| >= 1 && (s[0] == '-' || s[0] == '+') then
      if AllDigits(s[1..]) && |s| >= 2 then
        Some(if s[0] == '-' then 0 - DigitsValue(s[1..]) as int else DigitsValue(s[1..]))
      else None
    else if AllDigits(s) && |s| >= 1 then Some(DigitsValue(s))
    else None
  }

  /** `float(o)` */
  function Float(o: PyObj): (r: Result<real>)
    ensures o.PyNum? ==> r == Ok(o.r)
    ensures r.Err? <==> !(o.PyNum? || o.PyBool? || (o.PyStr? && ParseFloat(o.s).Some?))
  {
    match o
    case PyNum(x) => Ok(x)
    case PyBool(b) => Ok(if b then 1.0 else 0.0)
    case PyStr(s) =>
      (match ParseFloat(s)
       case Some(x) => Ok(x)
       case None => Err(ValueError("could not convert string to float")))
    case _ => Err(TypeError("float() argument must be a string or a real number"))
  }

  /** `int(o)` */
  function Int(o: PyObj): (r: Result<int>)
    ensures o.PyNum? ==> r == Ok(Trunc(o.r))
    ensures r.Err? <==> !(o.PyNum? || o.PyBool? || (o.PyStr? && ParseInt(o.s).Some?))
  {
    match o
    case PyNum(x) => Ok(Trunc(x))
    case PyBool(b) => Ok(if b then 1 else 0)
    case PyStr(s) =>
      (match ParseInt(s)
       case Some(n) => Ok(n)
       case None => Err(ValueError("invalid literal for int()")))
    case _ => Err(TypeError("int() argument must be a string or a real number"))
  }

  /** Every value of the event is a number: `float()` and `int()` succeed on all its fields. */
  predicate Numeric(e: Event) {
    forall k :: k in e ==> e[k].PyNum?
  }
}
