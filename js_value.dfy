/** The JavaScript values the questionnaire passes around, with the language rules
    the browser code leans on: truthiness, property access, `String(v)` and `parseInt`. */
module JsValue {
  import opened Text
  import opened Common

  /** A JavaScript value. Numbers are integers here, meant to be those a double
      holds exactly (see `MaxSafeInteger`); `NaN` stands apart because
      `parseInt` produces it and it is falsy. `File` is a browser file object, of which
      only `name` is read. */
  datatype Value =
    | Undefined
    | Null
    | Bool(b: bool)
    | Num(n: int)
    | NaN
    | Str(s: string)
    | File(name: string)
    | Obj(fields: map<string, Value>)

  /** JavaScript truthiness: `undefined`, `null`, `false`, `0`, `NaN` and `""` are falsy. */
  predicate Truthy(v: Value) {
    match v
    case Undefined => false
    case Null => false
    case Bool(b) => b
    case Num(n) => n != 0
    case NaN => false
    case Str(s) => s != ""
    case File(_) => true
    case Obj(_) => true
  }

  /** `a || b`. */
  function Or(a: Value, b: Value): Value {
    if Truthy(a) then a else b
  }

  function TypeErrorMessage(what: string, key: string): string {
    "Cannot read properties of " + what + " (reading '" + key + "')"
  }

  /** `v[key]`: a missing property reads as `undefined`; reading any property of
      `undefined` or `null` throws a TypeError. */
  function Prop(v: Value, key: string): (r: Result<Value>)
    ensures r.Err? <==> v.Undefined? || v.Null?
    ensures v.Obj? ==> r == Ok(if key in v.fields then v.fields[key] else Undefined)
  {
    match v
    case Undefined => Err(TypeErrorMessage("undefined", key))
    case Null => Err(TypeErrorMessage("null", key))
    case Obj(m) => Ok(if key in m then m[key] else Undefined)
    case File(name) => Ok(if key == "name" then Str(name) else Undefined)
    case Str(s) => Ok(if key == "length" then Num(|s|) else Undefined)
    case _ => Ok(Undefined)
  }

  function IntToString(n: int): (s: string)
    ensures s != []
  {
    if n < 0 then "-" + NatToString(-n) else NatToString(n)
  }

  /** `String(v)`. */
  function ToString(v: Value): string {
    match v
    case Undefined => "undefined"
    case Null => "null"
    case Bool(b) => if b then "true" else "false"
    case Num(n) => IntToString(n)
    case NaN => "NaN"
    case Str(s) => s
    case File(_) => "[object File]"
    case Obj(_) => "[object Object]"
  }

  /** The longest prefix of `s` made of digits of the radix. */
  function DigitPrefix(s: string, radix: Radix): (r: string)
    ensures |r| <= |s| && r == s[..|r|] && AllDigitsIn(r, radix)
    ensures |r| < |s| ==> !IsDigitIn(s[|r|], radix)
    decreases |s|
  {
    if s != [] && IsDigitIn(s[0], radix) then [s[0]] + DigitPrefix(s[1..], radix) else []
  }

  lemma {:induction false} DigitPrefixOfNumeral(s: string, radix: Radix)
    requires AllDigitsIn(s, radix)
    ensures DigitPrefix(s, radix) == s
    decreases |s|
  {
    if s != [] {
      DigitPrefixOfNumeral(s[1..], radix);
    }
  }

  /** `parseInt(v)` without a radix: convert to a string and read it. */
  function ParseInt(v: Value): (r: Value)
    ensures r.Num? || r.NaN?
  {
    ParseIntText(ToString(v))
  }

  /** Skip leading white space, read an optional sign, read a hexadecimal numeral
      after "0x" or "0X" and a decimal one otherwise, and stop at the first character
      that is not a digit. No digit at all gives `NaN`. */
  function ParseIntText(text: string): (r: Value)
    ensures r.Num? || r.NaN?
  {
    var s := TrimStart(text, IsJsSpace);
    var negative := s != [] && s[0] == '-';
    var unsigned := if s != [] && (s[0] == '-' || s[0] == '+') then s[1..] else s;
    var hex := |unsigned| >= 2 && unsigned[0] == '0' && (unsigned[1] == 'x' || unsigned[1] == 'X');
    var radix := if hex then Hex else Decimal;
    var digits := DigitPrefix(if hex then unsigned[2..] else unsigned, radix);
    if digits == [] then NaN
    else
      var magnitude: int := NumeralValue(digits, radix);
      Num(if negative then -magnitude else magnitude)
  }

  /** An unsigned numeral as `String(n)` writes it is read back as itself. */
  lemma ParseIntTextNumeral(n: nat)
    ensures ParseIntText(NatToString(n)) == Num(n)
  {
    var s := NatToString(n);
    assert !IsJsSpace(s[0]);
    assert TrimStart(s, IsJsSpace) == s;
    DigitPrefixOfNumeral(s, Decimal);
    NatToStringRoundTrip(n);
  }

  /** A decimal numeral as `String(n)` writes it reads back as the same number. */
  lemma ParseIntNumeral(n: nat)
    ensures ParseInt(Str(NatToString(n))) == Num(n)
  {
    ParseIntTextNumeral(n);
  }

  /** A negative numeral is read back with its sign. */
  lemma ParseIntTextNegative(m: nat)
    ensures ParseIntText("-" + NatToString(m)) == Num(-(m as int))
  {
    var digits := NatToString(m);
    var s := "-" + digits;
    assert !IsJsSpace(s[0]);
    assert TrimStart(s, IsJsSpace) == s;
    assert s[1..] == digits;
    DigitPrefixOfNumeral(digits, Decimal);
    NatToStringRoundTrip(m);
  }

  /** `Number.MAX_SAFE_INTEGER`, 2^53 - 1: every integer up to it in magnitude is a
      double, and `String` writes it as plain decimal digits. */
  const MaxSafeInteger := 9007199254740991

  /** `parseInt` of a safe integer gives the integer back, the sign included.
      Beyond that range `String` may switch to exponent notation ("1e+21"). */
  lemma ParseIntOfNumber(n: int)
    requires -MaxSafeInteger <= n <= MaxSafeInteger
    ensures ParseInt(Num(n)) == Num(n)
  {
    if n < 0 {
      ParseIntTextNegative(-n);
    } else {
      ParseIntTextNumeral(n);
    }
  }
}
