/** The string helpers the handlers rely on: `String.prototype.trim` (the nurse-name
    gate), `String(n)` and `padStart(2, '0')` (the `HH:MM` time of a new row), and the
    `<prefix>-<Date.now()>` ids. */
module Strings {

  /** The characters ECMAScript's `trim` removes: WhiteSpace and LineTerminator. */
  predicate IsWhitespace(c: char)
  {
    || c == ' ' || c == '\t' || c == '\n' || c == '\r' || c == '\U{B}' || c == '\U{C}'
    || c == '\U{A0}' || c == '\U{1680}' || ('\U{2000}' <= c <= '\U{200A}')
    || c == '\U{2028}' || c == '\U{2029}' || c == '\U{202F}' || c == '\U{205F}'
    || c == '\U{3000}' || c == '\U{FEFF}'
  }

  /** Every character of `s` is whitespace (vacuously true of ""). */
  predicate AllWhitespace(s: string)
  {
    forall i :: 0 <= i < |s| ==> IsWhitespace(s[i])
  }

  /** Drops leading whitespace. */
  function TrimStart(s: string): (r: string)
    ensures |r| <= |s| && r == s[|s| - |r|..]
    ensures r == [] || !IsWhitespace(r[0])
    ensures r == [] <==> AllWhitespace(s)
  {
    if s != [] && IsWhitespace(s[0]) then
      var r := TrimStart(s[1..]);
      assert AllWhitespace(s) <==> AllWhitespace(s[1..]) by {
        assert forall i :: 0 <= i < |s[1..]| ==> s[1..][i] == s[i + 1];
      }
      r
    else s
  }

  /** Drops trailing whitespace. */
  function TrimEnd(s: string): (r: string)
    ensures |r| <= |s| && r == s[..|r|]
    ensures r == [] || !IsWhitespace(r[|r| - 1])
    ensures r == [] <==> AllWhitespace(s)
  {
    if s != [] && IsWhitespace(s[|s| - 1]) then
      var r := TrimEnd(s[..|s| - 1]);
      assert AllWhitespace(s) <==> AllWhitespace(s[..|s| - 1]) by {
        assert forall i :: 0 <= i < |s| - 1 ==> s[..|s| - 1][i] == s[i];
      }
      r
    else s
  }

  /** `s.trim()`. */
  function Trim(s: string): (r: string)
  {
    TrimEnd(TrimStart(s))
  }

  /** `!s.trim()` holds exactly when `s` is empty or made only of whitespace. */
  lemma TrimEmptyIffBlank(s: string)
    ensures Trim(s) == [] <==> AllWhitespace(s)
  {
  }

  /** The decimal digit for `d`. */
  function Digit(d: nat): (c: char)
    requires d < 10
    ensures '0' <= c <= '9' && c as int - '0' as int == d
  {
    ['0', '1', '2', '3', '4', '5', '6', '7', '8', '9'][d]
  }

  predicate IsDigit(c: char)
  {
    '0' <= c <= '9'
  }

  /** The value of one decimal digit. */
  function DigitValue(c: char): (d: nat)
    requires IsDigit(c)
    ensures d < 10
  {
    c as int - '0' as int
  }

  /** The value of a string of decimal digits. */
  function DigitsValue(s: string): nat
    requires forall i :: 0 <= i < |s| ==> IsDigit(s[i])
  {
    if s == [] then 0 else DigitsValue(s[..|s| - 1]) * 10 + DigitValue(s[|s| - 1])
  }

  /** `String(n)` for a non-negative integer: its decimal digits, no leading zero. */
  function DecimalString(n: nat): (r: string)
    ensures |r| >= 1 && forall i :: 0 <= i < |r| ==> IsDigit(r[i])
    ensures DigitsValue(r) == n
    ensures |r| > 1 ==> r[0] != '0'
    ensures n < 10 ==> r == [Digit(n)]
    ensures 10 <= n < 100 ==> r == [Digit(n / 10), Digit(n % 10)]
  {
    if n < 10 then [Digit(n)]
    else
      var r := DecimalString(n / 10) + [Digit(n % 10)];
      assert r[..|r| - 1] == DecimalString(n / 10);
      r
  }

  /** `s.padStart(width, '0')`. */
  function PadStartZero(s: string, width: nat): (r: string)
    ensures |r| == if |s| >= width then |s| else width
    ensures r[|r| - |s|..] == s
    ensures forall i :: 0 <= i < |r| - |s| ==> r[i] == '0'
  {
    if |s| >= width then s
    else
      var r := seq(width - |s|, _ => '0') + s;
      assert r[|r| - |s|..] == s;
      r
  }

  /** The two-digit clock field, `String(n).padStart(2, '0')` for `n` below 100. */
  function TwoDigits(n: nat): (r: string)
    requires n < 100
    ensures |r| == 2 && IsDigit(r[0]) && IsDigit(r[1])
    ensures DigitsValue(r) == n
  {
    var r := if n < 10 then ['0', Digit(n)] else [Digit(n / 10), Digit(n % 10)];
    assert r[..|r| - 1] == [r[0]] && [r[0]][..0] == [];
    assert DigitsValue([r[0]]) == DigitValue(r[0]);
    assert DigitsValue(r) == DigitValue(r[0]) * 10 + DigitValue(r[1]);
    r
  }

  /** The two-digit field is exactly what padding the decimal string to width 2 gives. */
  lemma TwoDigitsIsPadStart(n: nat)
    requires n < 100
    ensures TwoDigits(n) == PadStartZero(DecimalString(n), 2)
  {
    var p := PadStartZero(DecimalString(n), 2);
    if n < 10 {
      assert p == ['0', Digit(n)] by {
        assert p[1..] == [Digit(n)];
      }
    }
  }

  /** The clock fields `getHours()` and `getMinutes()` return. */
  type Hour = h: nat | h < 24
  type Minute = m: nat | m < 60

  /** The `HH:MM` string built for a new row's time from the clock's hours and minutes. */
  function ClockTime(hours: nat, minutes: nat): (r: string)
    requires hours < 24 && minutes < 60
    ensures |r| == 5 && r[2] == ':'
    ensures forall i :: 0 <= i < 5 && i != 2 ==> IsDigit(r[i])
    ensures r[..2] == TwoDigits(hours) && r[3..] == TwoDigits(minutes)
  {
    var h := TwoDigits(hours);
    var m := TwoDigits(minutes);
    var r := h + ":" + m;
    assert r[..2] == h && r[3..] == m;
    r
  }

  /** Reading an `HH:MM` string back gives the clock fields it was built from. */
  lemma ClockTimeRoundTrip(hours: nat, minutes: nat)
    requires hours < 24 && minutes < 60
    ensures var r := ClockTime(hours, minutes);
            DigitsValue(r[..2]) == hours && DigitsValue(r[3..]) == minutes
  {
    var r := ClockTime(hours, minutes);
    assert r[..2] == TwoDigits(hours);
    assert r[3..] == TwoDigits(minutes);
  }

  /**
   * The `<prefix>-<millis>` ids stamped from `Date.now()`: the prefix, a dash
   * and the decimal digits of the time, which never start with a zero unless
   * the number is a single digit.
   */
  function StampedId(prefix: string, millis: nat): (r: string)
    ensures |r| > |prefix| + 1
    ensures r[..|prefix| + 1] == prefix + "-"
    ensures |r| > |prefix| + 2 ==> r[|prefix| + 1] != '0'
    ensures forall i :: |prefix| + 1 <= i < |r| ==> IsDigit(r[i])
    ensures DigitsValue(r[|prefix| + 1..]) == millis
  {
    var d := DecimalString(millis);
    var r := prefix + "-" + d;
    assert r[|prefix| + 1..] == d;
    r
  }
}
