/**
 * The parts of JavaScript's built-in behaviour that the components rely on:
 * `null` (and the `NaN` that `parseInt` returns) as `None`, truthiness and
 * relational comparison of a possibly-null number, `String.prototype.trim`,
 * the global `parseInt` called without a radix, and
 * `Number.prototype.toString` on a non-negative integer.
 */
module Js {

  datatype Option<+T> = None | Some(value: T)

  /** The number a possibly-null value stands for in `x || 0` and in a
      relational comparison such as `x > 150`: `null` becomes 0. */
  function NullAsZero(n: Option<int>): int {
    if n.Some? then n.value else 0
  }

  /** `!!n` for a number that may be `null` or `NaN`: only those and 0 are falsy. */
  predicate IsTruthy(n: Option<int>) {
    n.Some? && n.value != 0
  }

  /** The WhiteSpace and LineTerminator code points of ECMA-262, which both
      `trim` and `parseInt` skip. */
  predicate IsWhiteSpace(c: char) {
    c == '\t' || c == '\n' || c == '\U{000B}' || c == '\U{000C}' || c == '\r'
    || c == ' ' || c == '\U{00A0}' || c == '\U{1680}'
    || ('\U{2000}' <= c <= '\U{200A}')
    || c == '\U{2028}' || c == '\U{2029}' || c == '\U{202F}' || c == '\U{205F}'
    || c == '\U{3000}' || c == '\U{FEFF}'
  }

  predicate HasNonWhiteSpace(s: string) {
    exists i :: 0 <= i < |s| && !IsWhiteSpace(s[i])
  }

  /** Drops the leading white space: what is left is a suffix of `s` that is
      empty or starts with a character that is not white space. */
  function TrimStart(s: string): (r: string)
    ensures |r| <= |s| && r == s[|s| - |r|..]
    ensures forall i :: 0 <= i < |s| - |r| ==> IsWhiteSpace(s[i])
    ensures r != [] ==> !IsWhiteSpace(r[0])
  {
    if s != [] && IsWhiteSpace(s[0]) then TrimStart(s[1..]) else s
  }

  /** Drops the trailing white space: what is left is a prefix of `s` that is
      empty or ends with a character that is not white space. */
  function TrimEnd(s: string): (r: string)
    ensures |r| <= |s| && r == s[..|r|]
    ensures forall i :: |r| <= i < |s| ==> IsWhiteSpace(s[i])
    ensures r != [] ==> !IsWhiteSpace(r[|r| - 1])
  {
    if s != [] && IsWhiteSpace(s[|s| - 1]) then TrimEnd(s[..|s| - 1]) else s
  }

  /** `s.trim()`. */
  function Trim(s: string): string {
    TrimEnd(TrimStart(s))
  }

  /** Trimming leaves nothing exactly when every character of `s` is white
      space, and otherwise leaves text that starts and ends with a character
      that is not. */
  lemma TrimmedAway(s: string)
    ensures Trim(s) == [] <==> !HasNonWhiteSpace(s)
    ensures Trim(s) != [] ==> !IsWhiteSpace(Trim(s)[0]) && !IsWhiteSpace(Trim(s)[|Trim(s)| - 1])
  {
    var t := TrimStart(s);
    var r := TrimEnd(t);
    if r == [] {
      assert t == [];
    } else {
      assert r[0] == t[0] == s[|s| - |t|];
    }
  }

  /** `!s || !s.trim()`: the text is null, empty or white space only. */
  function IsBlank(s: Option<string>): (blank: bool)
    ensures blank <==> s.None? || !HasNonWhiteSpace(s.value)
  {
    var text := if s.Some? then s.value else "";
    TrimmedAway(text);
    s.None? || s.value == "" || Trim(s.value) == ""
  }

  /** The value of `c` as a digit in a radix up to 16, or 16 when it is none. */
  function DigitValue(c: char): (d: nat)
    ensures d <= 16
    ensures d < 10 <==> '0' <= c <= '9'
  {
    if '0' <= c <= '9' then c as int - '0' as int
    else if 'a' <= c <= 'f' then c as int - 'a' as int + 10
    else if 'A' <= c <= 'F' then c as int - 'A' as int + 10
    else 16
  }

  predicate IsDigit(c: char, radix: nat) {
    DigitValue(c) < radix
  }

  /** The length of the longest prefix of `s` made of digits of `radix`. */
  function DigitRun(s: string, radix: nat): (n: nat)
    ensures n <= |s|
    ensures forall i :: 0 <= i < n ==> IsDigit(s[i], radix)
    ensures n < |s| ==> !IsDigit(s[n], radix)
  {
    if s != [] && IsDigit(s[0], radix) then 1 + DigitRun(s[1..], radix) else 0
  }

  /** The number that the digit string `ds` denotes in `radix`, most
      significant digit first. */
  function DigitsValue(ds: string, radix: nat): nat {
    if ds == [] then 0
    else DigitsValue(ds[..|ds| - 1], radix) * radix + DigitValue(ds[|ds| - 1])
  }

  /**
   * `parseInt(s)` with no radix argument: skip leading white space, take an
   * optional sign, then read the digits that follow (see `ParseUnsigned`);
   * `NaN` is `None`.
   */
  function ParseInt(s: string): (r: Option<int>)
    ensures var t := TrimStart(s);
      var signed := t != [] && (t[0] == '-' || t[0] == '+');
      var u := if signed then t[1..] else t;
      (r.None? <==> !StartsWithNumeral(u))
      && (r.Some? && r.value != 0 ==> (r.value < 0 <==> t[0] == '-'))
  {
    var t := TrimStart(s);
    if t != [] && t[0] == '-' then
      match ParseUnsigned(t[1..])
      case None => None
      case Some(v) => Some(-v)
    else if t != [] && t[0] == '+' then ParseUnsigned(t[1..])
    else ParseUnsigned(t)
  }

  /** `u` starts with a digit: a hexadecimal one right after a `0x`/`0X`
      prefix, a decimal one otherwise. */
  predicate StartsWithNumeral(u: string) {
    if |u| >= 2 && u[0] == '0' && (u[1] == 'x' || u[1] == 'X')
    then |u| > 2 && IsDigit(u[2], 16)
    else u != [] && IsDigit(u[0], 10)
  }

  /** The unsigned part of `parseInt`: hexadecimal after a `0x`/`0X` prefix and
      decimal otherwise, up to the first character that is not a digit;
      `None` when no digit is there. */
  function ParseUnsigned(u: string): (r: Option<int>)
    ensures r.Some? ==> r.value >= 0
    ensures r.None? <==> !StartsWithNumeral(u)
  {
    var hex := |u| >= 2 && u[0] == '0' && (u[1] == 'x' || u[1] == 'X');
    var radix := if hex then 16 else 10;
    var body := if hex then u[2..] else u;
    var z := body[..DigitRun(body, radix)];
    if z == [] then None else Some(DigitsValue(z, radix))
  }

  function DigitChar(d: nat): (c: char)
    requires d < 10
    ensures '0' <= c <= '9' && DigitValue(c) == d
  {
    ('0' as int + d) as char
  }

  /** `n.toString()` for a non-negative integer: its decimal digits, with no
      sign and no leading zero. */
  function ToDecimalString(n: nat): (s: string)
    ensures s != []
    ensures forall i :: 0 <= i < |s| ==> '0' <= s[i] <= '9'
    ensures s[0] == '0' ==> n == 0
  {
    if n < 10 then [DigitChar(n)] else ToDecimalString(n / 10) + [DigitChar(n % 10)]
  }

  lemma {:induction false} DecimalStringValue(n: nat)
    ensures DigitsValue(ToDecimalString(n), 10) == n
  {
    var s := ToDecimalString(n);
    if n >= 10 {
      assert s[..|s| - 1] == ToDecimalString(n / 10);
      DecimalStringValue(n / 10);
    }
  }

  /** A non-negative integer written with `toString` reads back unchanged with
      `parseInt`. */
  lemma ParseIntOfDecimalString(n: nat)
    ensures ParseInt(ToDecimalString(n)) == Some(n)
  {
    var s := ToDecimalString(n);
    assert !IsWhiteSpace(s[0]);
    assert TrimStart(s) == s;
    DecimalDigitsParse(s);
    DecimalStringValue(n);
  }

  /** A string of decimal digits is read whole, in radix 10. */
  lemma DecimalDigitsParse(s: string)
    requires s != [] && forall i :: 0 <= i < |s| ==> '0' <= s[i] <= '9'
    ensures ParseUnsigned(s) == Some(DigitsValue(s, 10))
  {
    assert |s| >= 2 ==> s[1] != 'x' && s[1] != 'X';
    var k := DigitRun(s, 10);
    assert k == |s|;
    assert s[..k] == s;
  }
}
