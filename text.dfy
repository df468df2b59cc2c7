/** Character classes and string helpers shared by the browser code (JavaScript)
    and the plan generator (Python): white-space trimming and decimal numerals. */
module Text {

  /** White space as ECMAScript's `String.prototype.trim` and the regex class `\s`
      understand it: the WhiteSpace and LineTerminator productions. */
  predicate IsJsSpace(c: char) {
    c == ' ' || c == '\t' || c == '\n' || c == '\r' || c == '\U{0B}' || c == '\U{0C}'
    || c == '\U{A0}' || c == '\U{1680}' || ('\U{2000}' <= c <= '\U{200A}')
    || c == '\U{2028}' || c == '\U{2029}' || c == '\U{202F}' || c == '\U{205F}'
    || c == '\U{3000}' || c == '\U{FEFF}'
  }

  /** White space as Python's `str.strip()` without arguments understands it
      (`str.isspace`): unlike JavaScript it includes U+001C..U+001F and U+0085,
      and excludes U+FEFF. */
  predicate IsPySpace(c: char) {
    c == ' ' || c == '\t' || c == '\n' || c == '\r' || c == '\U{0B}' || c == '\U{0C}'
    || ('\U{1C}' <= c <= '\U{1F}') || c == '\U{85}'
    || c == '\U{A0}' || c == '\U{1680}' || ('\U{2000}' <= c <= '\U{200A}')
    || c == '\U{2028}' || c == '\U{2029}' || c == '\U{202F}' || c == '\U{205F}'
    || c == '\U{3000}'
  }

  predicate AllSpace(s: string, space: char -> bool) {
    forall k :: 0 <= k < |s| ==> space(s[k])
  }

  /** Drops the maximal run of leading white space. */
  function TrimStart(s: string, space: char -> bool): (r: string)
    ensures |r| <= |s|
    ensures AllSpace(s[..|s| - |r|], space)
    ensures r == [] || !space(r[0])
    decreases |s|
  {
    if s != [] && space(s[0]) then TrimStart(s[1..], space) else s
  }

  /** What is left after trimming the start is a suffix of the text. (Kept out of
      the contract of `TrimStart`: stated there it makes every proof that mentions
      a trimmed string much more expensive.) */
  lemma {:induction false} TrimStartIsSuffix(s: string, space: char -> bool)
    ensures TrimStart(s, space) == s[|s| - |TrimStart(s, space)|..]
    decreases |s|
  {
    if s != [] && space(s[0]) {
      TrimStartIsSuffix(s[1..], space);
      assert s[1..][|s| - 1 - |TrimStart(s, space)|..] == s[|s| - |TrimStart(s, space)|..];
    }
  }

  /** Drops the maximal run of trailing white space. */
  function TrimEnd(s: string, space: char -> bool): (r: string)
    ensures |r| <= |s| && r == s[..|r|]
    ensures AllSpace(s[|r|..], space)
    ensures r == [] || !space(r[|r| - 1])
    decreases |s|
  {
    if s != [] && space(s[|s| - 1]) then TrimEnd(s[..|s| - 1], space) else s
  }

  /** Both ends trimmed: `trim()` in JavaScript, `strip()` in Python. */
  function Strip(s: string, space: char -> bool): (r: string)
    ensures r == [] || (!space(r[0]) && !space(r[|r| - 1]))
    ensures r == [] <==> AllSpace(s, space)
  {
    var t := TrimStart(s, space);
    var r := TrimEnd(t, space);
    TrimStartIsSuffix(s, space);
    assert t != [] ==> s[|s| - |t|] == t[0];
    assert r == [] ==> AllSpace(s, space) by {
      if r == [] {
        assert s == s[..|s| - |t|] + t;
        assert AllSpace(t[|r|..], space);
      }
    }
    r
  }

  /** Stripping keeps exactly the text between the leading and the trailing white
      space: the result is a slice of the input and everything cut away is white space. */
  lemma StripIsSlice(s: string, space: char -> bool)
    ensures var r := Strip(s, space);
      exists i :: 0 <= i <= |s| - |r| && s[i..i + |r|] == r
        && AllSpace(s[..i], space) && AllSpace(s[i + |r|..], space)
  {
    var t := TrimStart(s, space);
    var r := TrimEnd(t, space);
    TrimStartIsSuffix(s, space);
    assert r == Strip(s, space);
    var i := |s| - |t|;
    assert s[i..i + |r|] == r by { assert s[i..] == t; }
    assert s[i + |r|..] == t[|r|..] by { assert s[i..] == t; }
    assert AllSpace(s[..i], space);
  }

  /** Stripping twice is stripping once. */
  lemma StripIdempotent(s: string, space: char -> bool)
    ensures Strip(Strip(s, space), space) == Strip(s, space)
  {
    var r := Strip(s, space);
    assert TrimStart(r, space) == r;
    assert TrimEnd(r, space) == r;
  }

  // Splitting on a single character

  /** `s.split(sep)` for a one-character separator, in JavaScript and Python alike:
      the pieces between the separators, empty pieces included. */
  function SplitOn(s: string, sep: char): (r: seq<string>)
    ensures |r| >= 1
    ensures forall k :: 0 <= k < |r| ==> sep !in r[k]
    ensures |r| == 1 <==> sep !in s
    decreases |s|
  {
    if s == [] then [""]
    else
      var rest := SplitOn(s[1..], sep);
      if s[0] == sep then [""] + rest else [[s[0]] + rest[0]] + rest[1..]
  }

  /** The text before the first separator is the first piece, and the rest is split
      on its own. */
  lemma {:induction false} SplitOnFirst(a: string, sep: char, b: string)
    requires sep !in a
    ensures SplitOn(a + [sep] + b, sep) == [a] + SplitOn(b, sep)
    decreases |a|
  {
    if a == [] {
      assert ([] + [sep] + b)[1..] == b;
    } else {
      assert (a + [sep] + b)[1..] == a[1..] + [sep] + b;
      SplitOnFirst(a[1..], sep, b);
      assert [a[0]] + a[1..] == a;
    }
  }

  /** Text without the separator splits into itself alone. */
  lemma SplitOnNone(s: string, sep: char)
    requires sep !in s
    ensures SplitOn(s, sep) == [s]
  {
    var r := SplitOn(s, sep);
    SplitOnJoin(s, sep);
  }

  /** `sep.join(pieces)`: the pieces with one separator between neighbours. */
  function JoinWith(pieces: seq<string>, sep: char): string
    requires |pieces| >= 1
    decreases |pieces|
  {
    if |pieces| == 1 then pieces[0] else pieces[0] + [sep] + JoinWith(pieces[1..], sep)
  }

  /** Splitting loses nothing: joining the pieces gives the input back. */
  lemma {:induction false} SplitOnJoin(s: string, sep: char)
    ensures JoinWith(SplitOn(s, sep), sep) == s
    decreases |s|
  {
    if s != [] {
      SplitOnJoin(s[1..], sep);
      var rest := SplitOn(s[1..], sep);
      if s[0] == sep {
        assert SplitOn(s, sep)[1..] == rest;
      } else {
        var r := SplitOn(s, sep);
        assert r[1..] == rest[1..];
        if |rest| > 1 {
          assert JoinWith(r, sep) == [s[0]] + rest[0] + [sep] + JoinWith(rest[1..], sep);
        }
      }
    }
  }

  /** The last piece of a split (`s.split(sep).pop()` in JavaScript): the text after
      the last separator, or all of `s` when it has none. */
  function LastPiece(s: string, sep: char): (r: string)
    ensures sep !in r
    ensures |r| <= |s| && r == s[|s| - |r|..]
    ensures sep in s ==> |r| < |s| && s[|s| - |r| - 1] == sep
    ensures sep !in s ==> r == s
  {
    var pieces := SplitOn(s, sep);
    LastPieceIsSuffix(s, sep);
    pieces[|pieces| - 1]
  }

  lemma {:induction false} LastPieceIsSuffix(s: string, sep: char)
    ensures var pieces := SplitOn(s, sep); var r := pieces[|pieces| - 1];
      |r| <= |s| && r == s[|s| - |r|..]
      && (sep in s ==> |r| < |s| && s[|s| - |r| - 1] == sep)
      && (sep !in s ==> r == s)
    decreases |s|
  {
    if s != [] {
      LastPieceIsSuffix(s[1..], sep);
      var rest := SplitOn(s[1..], sep);
      var pieces := SplitOn(s, sep);
      if s[0] == sep {
        assert pieces[|pieces| - 1] == rest[|rest| - 1];
      } else if |rest| > 1 {
        assert pieces[|pieces| - 1] == rest[|rest| - 1];
      } else {
        assert pieces == [[s[0]] + rest[0]];
      }
    }
  }

  // Numerals

  datatype Radix = Decimal | Hex

  function Base(radix: Radix): nat {
    if radix == Decimal then 10 else 16
  }

  /** A digit of the radix: 0-9, and for hexadecimal also a-f and A-F. */
  predicate IsDigitIn(c: char, radix: Radix) {
    '0' <= c <= '9' || (radix == Hex && ('a' <= c <= 'f' || 'A' <= c <= 'F'))
  }

  function DigitValue(c: char, radix: Radix): (d: nat)
    requires IsDigitIn(c, radix)
    ensures d < Base(radix)
  {
    if '0' <= c <= '9' then (c as int) - ('0' as int)
    else if 'a' <= c <= 'f' then (c as int) - ('a' as int) + 10
    else (c as int) - ('A' as int) + 10
  }

  predicate AllDigitsIn(s: string, radix: Radix) {
    forall k :: 0 <= k < |s| ==> IsDigitIn(s[k], radix)
  }

  /** The value of a numeral, most significant digit first. */
  function NumeralValue(s: string, radix: Radix): nat
    requires AllDigitsIn(s, radix)
    decreases |s|
  {
    if s == [] then 0
    else NumeralValue(s[..|s| - 1], radix) * Base(radix) + DigitValue(s[|s| - 1], radix)
  }

  function DigitChar(d: nat): (c: char)
    requires d < 10
    ensures IsDigitIn(c, Decimal) && DigitValue(c, Decimal) == d
  {
    (('0' as int) + d) as char
  }

  /** The decimal numeral of a natural number, as JavaScript's `String(n)` and
      Python's f-string formatting write it: no leading zeros, "0" for zero. */
  function NatToString(n: nat): (s: string)
    ensures s != [] && AllDigitsIn(s, Decimal)
    ensures |s| > 1 ==> s[0] != '0'
    decreases n
  {
    if n < 10 then [DigitChar(n)] else NatToString(n / 10) + [DigitChar(n % 10)]
  }

  /** Reading back a numeral gives the number it was written from. */
  lemma {:induction false} NatToStringRoundTrip(n: nat)
    ensures NumeralValue(NatToString(n), Decimal) == n
    decreases n
  {
    var s := NatToString(n);
    if n >= 10 {
      NatToStringRoundTrip(n / 10);
      assert s[..|s| - 1] == NatToString(n / 10);
    }
  }

  /** Different numbers are written differently. */
  lemma NatToStringInjective(m: nat, n: nat)
    requires NatToString(m) == NatToString(n)
    ensures m == n
  {
    NatToStringRoundTrip(m);
    NatToStringRoundTrip(n);
  }
}
