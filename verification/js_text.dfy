/**
 * The JavaScript string operations the client depends on: `trim`, `length`
 * (UTF-16 code units), `toUpperCase` as far as product IDs need it,
 * number-to-string for integers, and `parseInt` without a radix argument.
 */
module JsText {
  import opened Base

  /** ECMAScript WhiteSpace and LineTerminator characters: what `trim` strips
      and what `parseInt` skips before the number. */
  predicate IsJsSpace(c: char) {
    || c == '\t' || c == '\n' || c == '\U{000B}' || c == '\U{000C}' || c == '\r' || c == ' '
    || c == '\U{00A0}' || c == '\U{1680}' || ('\U{2000}' <= c <= '\U{200A}')
    || c == '\U{2028}' || c == '\U{2029}' || c == '\U{202F}' || c == '\U{205F}'
    || c == '\U{3000}' || c == '\U{FEFF}'
  }

  /** Drops the leading run of whitespace: the result is the suffix of `s`
      that starts at its first non-space character. */
  function TrimStart(s: string): (r: string)
    ensures |r| <= |s|
    ensures r == [] || !IsJsSpace(r[0])
  {
    if s != [] && IsJsSpace(s[0]) then TrimStart(s[1..]) else s
  }

  /** Drops the trailing run of whitespace: the result is the prefix of `s`
      that ends at its last non-space character. */
  function TrimEnd(s: string): (r: string)
    ensures |r| <= |s| && (r != [] ==> r[0] == s[0])
    ensures r == [] || !IsJsSpace(r[|r| - 1])
  {
    if s != [] && IsJsSpace(s[|s| - 1]) then TrimEnd(s[..|s| - 1]) else s
  }

  /** TrimStart drops only whitespace: the result is a suffix of the input
      and everything before it is whitespace. */
  lemma {:induction false} TrimStartDropsSpace(s: string)
    ensures var r := TrimStart(s);
            && r == s[|s| - |r|..]
            && forall i :: 0 <= i < |s| - |r| ==> IsJsSpace(s[i])
  {
    if s != [] && IsJsSpace(s[0]) {
      TrimStartDropsSpace(s[1..]);
    }
  }

  /** TrimEnd drops only whitespace: the result is a prefix of the input and
      everything after it is whitespace. */
  lemma {:induction false} TrimEndDropsSpace(s: string)
    ensures var r := TrimEnd(s);
            && r == s[..|r|]
            && forall i :: |r| <= i < |s| ==> IsJsSpace(s[i])
  {
    if s != [] && IsJsSpace(s[|s| - 1]) {
      TrimEndDropsSpace(s[..|s| - 1]);
    }
  }

  predicate NoSpaceAtStart(s: string) {
    s == [] || !IsJsSpace(s[0])
  }

  predicate NoSpaceAtEnd(s: string) {
    s == [] || !IsJsSpace(s[|s| - 1])
  }

  /** `String.prototype.trim`. */
  function Trim(s: string): (r: string)
    ensures |r| <= |s|
    ensures NoSpaceAtStart(r) && NoSpaceAtEnd(r)
  {
    TrimEnd(TrimStart(s))
  }

  /** A string that neither starts nor ends with whitespace is its own trim. */
  lemma TrimOfTrimmed(s: string)
    requires NoSpaceAtStart(s) && NoSpaceAtEnd(s)
    ensures Trim(s) == s
  {
  }

  /** The `length` JavaScript reports: UTF-16 code units, two for a character
      outside the Basic Multilingual Plane. */
  function JsLength(s: string): (n: nat)
    ensures |s| <= n <= 2 * |s|
    ensures n == 0 <==> s == []
  {
    if s == [] then 0 else (if s[0] as int > 0xFFFF then 2 else 1) + JsLength(s[1..])
  }

  /** `toUpperCase` of one character, for the characters whose upper-case form
      is ASCII: a-z, dotless i, long s, sharp s and the Latin ligatures
      U+FB00..U+FB06. Any other character is kept as it is. */
  function UpperChar(c: char): (r: string)
    ensures 1 <= |r| <= 3
  {
    if 'a' <= c <= 'z' then [(c as int - 32) as char]
    else if c == '\U{0131}' then "I"
    else if c == '\U{017F}' then "S"
    else if c == '\U{00DF}' then "SS"
    else if c == '\U{FB00}' then "FF"
    else if c == '\U{FB01}' then "FI"
    else if c == '\U{FB02}' then "FL"
    else if c == '\U{FB03}' then "FFI"
    else if c == '\U{FB04}' then "FFL"
    else if c == '\U{FB05}' || c == '\U{FB06}' then "ST"
    else [c]
  }

  /** `toUpperCase`, character by character. */
  function ToUpper(s: string): string {
    if s == [] then [] else UpperChar(s[0]) + ToUpper(s[1..])
  }

  predicate IsDecDigit(c: char) {
    '0' <= c <= '9'
  }

  function DigitChar(d: nat): (c: char)
    requires d < 10
    ensures IsDecDigit(c)
  {
    ('0' as int + d) as char
  }

  /** Number-to-string of a non-negative integer: decimal digits without a
      leading zero. */
  function NatToDecimal(n: nat): (r: string)
    ensures r != [] && forall i :: 0 <= i < |r| ==> IsDecDigit(r[i])
    ensures n > 0 ==> r[0] != '0'
  {
    if n < 10 then [DigitChar(n)] else NatToDecimal(n / 10) + [DigitChar(n % 10)]
  }

  /** Number-to-string of an integer. */
  function IntToDecimal(n: int): string {
    if n < 0 then "-" + NatToDecimal(-n) else NatToDecimal(n)
  }

  /** The value of a digit in any radix up to 36 (letters in either case);
      36 for a character that is no digit at all. */
  function DigitValue(c: char): nat {
    if '0' <= c <= '9' then c as int - '0' as int
    else if 'a' <= c <= 'z' then c as int - 'a' as int + 10
    else if 'A' <= c <= 'Z' then c as int - 'A' as int + 10
    else 36
  }

  predicate IsDigitIn(c: char, radix: nat) {
    DigitValue(c) < radix
  }

  /** The longest prefix of `s` made of digits of `radix`. */
  function LeadingDigits(s: string, radix: nat): (r: string)
    ensures |r| <= |s| && r == s[..|r|]
    ensures forall i :: 0 <= i < |r| ==> IsDigitIn(r[i], radix)
    ensures |r| == |s| || !IsDigitIn(s[|r|], radix)
  {
    if s != [] && IsDigitIn(s[0], radix) then [s[0]] + LeadingDigits(s[1..], radix) else []
  }

  /** The number a digit string denotes in `radix`, most significant digit first. */
  function DigitsValue(d: string, radix: nat): nat {
    if d == [] then 0 else DigitsValue(d[..|d| - 1], radix) * radix + DigitValue(d[|d| - 1])
  }

  /** The digits after an optional sign: hexadecimal after a `0x`/`0X`
      prefix, decimal otherwise, up to the first non-digit; None when there is
      no digit at all. */
  function ParseUnsigned(u: string): Option<nat> {
    var hex := |u| >= 2 && u[0] == '0' && (u[1] == 'x' || u[1] == 'X');
    var radix := if hex then 16 else 10;
    var digits := LeadingDigits(if hex then u[2..] else u, radix);
    if digits == [] then None else Some(DigitsValue(digits, radix))
  }

  /** An optional sign followed by the digits ParseUnsigned reads. */
  function ParseSigned(t: string): Option<int> {
    var negative := t != [] && t[0] == '-';
    var u := if t != [] && (t[0] == '-' || t[0] == '+') then t[1..] else t;
    match ParseUnsigned(u)
    case None => None
    case Some(v) => Some(if negative then 0 - v else v)
  }

  /** `parseInt(s)` with no radix: skip leading whitespace, then a signed
      number; None is NaN. */
  function ParseInt(s: string): Option<int> {
    ParseSigned(TrimStart(s))
  }

  /** `parseInt(s) || 0`: NaN (and zero) read as 0. */
  function IntOrZero(s: string): int {
    match ParseInt(s)
    case None => 0
    case Some(v) => v
  }

  lemma {:induction false} DigitsValueOfDecimal(n: nat)
    ensures DigitsValue(NatToDecimal(n), 10) == n
  {
    var d := NatToDecimal(n);
    if n < 10 {
      assert d[..|d| - 1] == [];
    } else {
      var p := NatToDecimal(n / 10);
      assert d == p + [DigitChar(n % 10)];
      assert d[..|d| - 1] == p;
      DigitsValueOfDecimal(n / 10);
    }
  }

  lemma {:induction false} LeadingDigitsOfDigits(d: string, rest: string, radix: nat)
    requires forall i :: 0 <= i < |d| ==> IsDigitIn(d[i], radix)
    requires rest == [] || !IsDigitIn(rest[0], radix)
    ensures LeadingDigits(d + rest, radix) == d
    decreases |d|
  {
    if d != [] {
      assert (d + rest)[1..] == d[1..] + rest;
      LeadingDigitsOfDigits(d[1..], rest, radix);
    }
  }

  lemma ParseUnsignedOfDecimal(m: nat, rest: string)
    requires rest == [] || !IsDecDigit(rest[0])
    requires m == 0 ==> rest == [] || (rest[0] != 'x' && rest[0] != 'X')
    ensures ParseUnsigned(NatToDecimal(m) + rest) == Some(m)
  {
    var d := NatToDecimal(m);
    var u := d + rest;
    assert u[0] == d[0];
    assert |u| >= 2 && u[0] == '0' ==> |d| == 1 && u[1] == rest[0];
    assert rest == [] || !IsDigitIn(rest[0], 10);
    LeadingDigitsOfDigits(d, rest, 10);
    DigitsValueOfDecimal(m);
  }

  /** `parseInt` reads back what number-to-string writes, whatever follows the
      digits, unless what follows is another digit or turns a lone `0` into a
      `0x` prefix. */
  lemma ParseIntOfDecimal(n: int, rest: string)
    requires rest == [] || !IsDecDigit(rest[0])
    requires n == 0 ==> rest == [] || (rest[0] != 'x' && rest[0] != 'X')
    ensures ParseInt(IntToDecimal(n) + rest) == Some(n)
  {
    if n < 0 {
      ParseSignedOfNegative(n, rest);
    } else {
      ParseSignedOfNatural(n, rest);
    }
    var s := IntToDecimal(n) + rest;
    assert s[0] == IntToDecimal(n)[0];
    ParseIntOfNonSpace(s);
  }

  lemma ParseSignedOfNegative(n: int, rest: string)
    requires n < 0
    requires rest == [] || !IsDecDigit(rest[0])
    ensures ParseSigned(IntToDecimal(n) + rest) == Some(n)
  {
    var d := NatToDecimal(-n);
    assert IntToDecimal(n) == ['-'] + d;
    PrependAssoc('-', d, rest);
    ParseUnsignedOfDecimal(-n, rest);
    ParseSignedOfMinus(d + rest);
    assert IntToDecimal(n) + rest == ['-'] + (d + rest);
  }

  lemma PrependAssoc(c: char, d: string, rest: string)
    ensures ([c] + d) + rest == [c] + (d + rest)
  {
  }

  /** A leading minus sign negates what follows it. */
  lemma ParseSignedOfMinus(u: string)
    ensures ParseSigned(['-'] + u) == if ParseUnsigned(u).Some? then Some(0 - ParseUnsigned(u).value) else None
  {
    var t := ['-'] + u;
    assert t[0] == '-' && t[1..] == u;
  }

  lemma ParseSignedOfNatural(n: int, rest: string)
    requires n >= 0
    requires rest == [] || !IsDecDigit(rest[0])
    requires n == 0 ==> rest == [] || (rest[0] != 'x' && rest[0] != 'X')
    ensures ParseSigned(IntToDecimal(n) + rest) == Some(n)
  {
    var s := IntToDecimal(n) + rest;
    assert s == NatToDecimal(n) + rest;
    assert s[0] == NatToDecimal(n)[0];
    ParseUnsignedOfDecimal(n, rest);
  }

  lemma ParseIntOfNonSpace(s: string)
    requires s != [] && !IsJsSpace(s[0])
    ensures ParseInt(s) == ParseSigned(s)
  {
  }
}
