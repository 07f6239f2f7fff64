/**
 * Decoded JSON values and the conversions PHP applies to them when they are
 * passed to a typed parameter or property in coercive typing mode (the client
 * file does not declare strict types).
 */
module PhpValues {

  import opened Wrappers

  /** A value as `json_decode($body, true)` returns it. */
  datatype Json =
    | JNull
    | JBool(b: bool)
    | JInt(i: int)
    | JFloat(f: real)
    | JString(s: string)
    | JArray(elems: seq<Json>)
    | JObject(fields: map<string, Json>)

  /**
   * Reading `$v['key']` for a non-numeric string key. A missing key, or a
   * container that is null, a bool or a number, reads as null (PHP only
   * warns); a string container throws, which is None.
   */
  function Index(v: Json, key: string): Option<Json>
  {
    match v
    case JObject(m) => Some(if key in m then m[key] else JNull)
    case JString(_) => None
    case _ => Some(JNull)
  }

  predicate IsDigit(c: char)
  {
    '0' <= c <= '9'
  }

  predicate AllDigits(s: string)
  {
    forall i :: 0 <= i < |s| ==> IsDigit(s[i])
  }

  /** The value of a string of decimal digits, most significant first. */
  function DigitsValue(s: string): nat
    requires AllDigits(s)
    decreases |s|
  {
    if |s| == 0 then 0
    else DigitsValue(s[..|s| - 1]) * 10 + ((s[|s| - 1] as int) - ('0' as int))
  }

  /**
   * An integer numeric string: an optional sign followed by at least one
   * digit. None is a string PHP does not read as an integer.
   */
  function ParseInt(s: string): Option<int>
  {
    if |s| > 0 && (s[0] == '-' || s[0] == '+') then
      var d := s[1..];
      if |d| > 0 && AllDigits(d) then
        var magnitude: int := DigitsValue(d);
        Some(if s[0] == '-' then -magnitude else magnitude)
      else None
    else if |s| > 0 && AllDigits(s) then Some(DigitsValue(s) as int)
    else None
  }

  /** The decimal digits of `n`, without leading zeros. */
  function NatDigits(n: nat): (s: string)
    ensures |s| > 0 && AllDigits(s)
    ensures s[0] != '-' && s[0] != '+'
    decreases n
  {
    if n < 10 then [(('0' as int) + n) as char]
    else NatDigits(n / 10) + [(('0' as int) + n % 10) as char]
  }

  /** `(string)$n` for a PHP integer. */
  function IntToString(n: int): string
  {
    if n < 0 then "-" + NatDigits(-n) else NatDigits(n)
  }

  lemma {:induction false} DigitsValueOfNatDigits(n: nat)
    ensures DigitsValue(NatDigits(n)) == n
    decreases n
  {
    if n >= 10 {
      DigitsValueOfNatDigits(n / 10);
      var s := NatDigits(n);
      assert s[..|s| - 1] == NatDigits(n / 10);
    }
  }

  /** Reading back the string form of an integer gives the integer. */
  lemma IntToStringRoundTrip(n: int)
    ensures ParseInt(IntToString(n)) == Some(n)
  {
    if n < 0 {
      DigitsValueOfNatDigits(-n);
      assert ("-" + NatDigits(-n))[1..] == NatDigits(-n);
    } else {
      DigitsValueOfNatDigits(n);
    }
  }

  /** A real truncated toward zero, as PHP converts a float to an int. */
  function Trunc(f: real): int
  {
    if f >= 0.0 then f.Floor else -((-f).Floor)
  }

  /** Passing `v` to a `string` parameter; None is the TypeError. */
  function StringParam(v: Json): Option<string>
  {
    match v
    case JString(s) => Some(s)
    case JInt(i) => Some(IntToString(i))
    case JBool(b) => Some(if b then "1" else "")
    case _ => None
  }

  /** Passing `v` to a `?string` parameter or assigning it to a `?string` property. */
  function NullableStringParam(v: Json): Option<Option<string>>
  {
    if v.JNull? then Some(None)
    else match StringParam(v)
      case Some(s) => Some(Some(s))
      case None => None
  }

  /** Passing `v` to a `bool` parameter. */
  function BoolParam(v: Json): Option<bool>
  {
    match v
    case JBool(b) => Some(b)
    case JInt(i) => Some(i != 0)
    case JFloat(f) => Some(f != 0.0)
    case JString(s) => Some(s != "" && s != "0")
    case _ => None
  }

  /** Passing a non-null `v` to an `int` parameter. */
  function IntParam(v: Json): Option<int>
  {
    match v
    case JInt(i) => Some(i)
    case JBool(b) => Some(if b then 1 else 0)
    case JFloat(f) => Some(Trunc(f))
    case JString(s) => ParseInt(s)
    case _ => None
  }

  /** Passing `v` to a `?int` parameter. */
  function NullableIntParam(v: Json): Option<Option<int>>
  {
    if v.JNull? then Some(None)
    else match IntParam(v)
      case Some(i) => Some(Some(i))
      case None => None
  }

  /** Passing a non-null `v` to a `float` parameter. */
  function FloatParam(v: Json): Option<real>
  {
    match v
    case JFloat(f) => Some(f)
    case JInt(i) => Some(i as real)
    case JBool(b) => Some(if b then 1.0 else 0.0)
    case JString(s) =>
      (match ParseInt(s)
       case Some(i) => Some(i as real)
       case None => None)
    case _ => None
  }

  /** Passing `v` to a `?float` parameter. */
  function NullableFloatParam(v: Json): Option<Option<real>>
  {
    if v.JNull? then Some(None)
    else match FloatParam(v)
      case Some(f) => Some(Some(f))
      case None => None
  }
}
