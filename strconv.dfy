/**
 * The parts of Go's `strconv` package the engine relies on: `Atoi` (with
 * its 64-bit range check), `Itoa`, and the decimal part of the syntax that
 * `ParseFloat` accepts.
 */
module Strconv {
  import opened Values

  predicate IsAsciiDigit(c: char) {
    '0' <= c <= '9'
  }

  predicate AllDigits(s: string) {
    forall i :: 0 <= i < |s| ==> IsAsciiDigit(s[i])
  }

  function DigitValue(c: char): nat
    requires IsAsciiDigit(c)
  {
    c as int - '0' as int
  }

  /** The number a string of decimal digits denotes, most significant first. */
  function DigitsValue(d: string): nat
    requires AllDigits(d)
  {
    if d == [] then 0 else DigitsValue(d[..|d| - 1]) * 10 + DigitValue(d[|d| - 1])
  }

  /** Length of an optional leading sign. */
  function SignLength(s: string): nat {
    if |s| > 0 && (s[0] == '+' || s[0] == '-') then 1 else 0
  }

  /** The syntax `Atoi` accepts in base 10: an optional sign and at least one digit. */
  predicate IntSyntax(s: string) {
    SignLength(s) < |s| && AllDigits(s[SignLength(s)..])
  }

  /** The integer a numeral denotes: negative only after a minus sign. */
  function IntValue(s: string): (n: int)
    requires IntSyntax(s)
  {
    var n: int := DigitsValue(s[SignLength(s)..]);
    if s[0] == '-' then -n else n
  }

  /** A numeral denotes a negative number only after a minus sign. */
  lemma IntValueSign(s: string)
    requires IntSyntax(s)
    ensures s[0] == '-' ==> IntValue(s) <= 0
    ensures s[0] != '-' ==> IntValue(s) >= 0
  {
  }

  /**
   * `strconv.Atoi` succeeds exactly on well-formed numerals that fit in an
   * `int`. Every such numeral is also float syntax, so the order in which
   * matchNumber tries the two decides that it is read as an integer.
   */
  predicate AtoiAccepts(s: string)
    ensures AtoiAccepts(s) ==> FloatSyntax(s)
  {
    if IntSyntax(s) then
      DigitRunToEnd(s, SignLength(s));
      InInt64(IntValue(s))
    else false
  }

  /** The end of the run of ASCII digits starting at `i`. */
  function DigitRun(s: string, i: nat): (j: nat)
    requires i <= |s|
    ensures i <= j <= |s|
    ensures j < |s| ==> !IsAsciiDigit(s[j])
    decreases |s| - i
  {
    if i < |s| && IsAsciiDigit(s[i]) then DigitRun(s, i + 1) else i
  }

  /** A run of digits that reaches the end of the text ends there. */
  lemma {:induction false} DigitRunToEnd(s: string, i: nat)
    requires i <= |s| && AllDigits(s[i..])
    ensures DigitRun(s, i) == |s|
    decreases |s| - i
  {
    if i < |s| {
      assert IsAsciiDigit(s[i..][0]);
      assert s[i + 1..] == s[i..][1..];
      DigitRunToEnd(s, i + 1);
    }
  }

  /** Everything DigitRun passes over is a digit. */
  lemma {:induction false} DigitRunSkips(s: string, i: nat)
    requires i <= |s|
    ensures forall k :: i <= k < DigitRun(s, i) ==> IsAsciiDigit(s[k])
    decreases |s| - i
  {
    if i < |s| && IsAsciiDigit(s[i]) {
      DigitRunSkips(s, i + 1);
    }
  }

  /**
   * The decimal floating-point syntax of `strconv.ParseFloat` for text that
   * starts with a digit after an optional sign:
   * `[+-]? digits ('.' digits?)? ([eE] [+-]? digits)?`.
   */
  predicate FloatSyntax(s: string)
    ensures FloatSyntax(s) ==> SignLength(s) < |s| && IsAsciiDigit(s[SignLength(s)])
  {
    var b := SignLength(s);
    var m := DigitRun(s, b);
    var f := if m < |s| && s[m] == '.' then DigitRun(s, m + 1) else m;
    m > b &&
    (f == |s| ||
     (f < |s| && (s[f] == 'e' || s[f] == 'E') &&
      var e := if f + 1 < |s| && (s[f + 1] == '+' || s[f + 1] == '-') then f + 2 else f + 1;
      e < |s| && DigitRun(s, e) == |s|))
  }

  function DigitChar(d: nat): (c: char)
    requires d < 10
    ensures IsAsciiDigit(c) && DigitValue(c) == d
  {
    ('0' as int + d) as char
  }

  /** Decimal digits of `n` without leading zeros. */
  function Digits(n: nat): (d: string)
    ensures |d| > 0 && AllDigits(d)
    ensures DigitsValue(d) == n
    ensures |d| > 1 ==> d[0] != '0'
  {
    if n < 10 then [DigitChar(n)]
    else
      var prefix := Digits(n / 10);
      var d := prefix + [DigitChar(n % 10)];
      assert d[..|d| - 1] == prefix;
      d
  }

  /** `strconv.Itoa`: Atoi's syntax reads its text back as the same number. */
  function Itoa(i: int): (s: string)
    ensures IntSyntax(s) && IntValue(s) == i
    ensures s[0] != '+'
  {
    if i < 0 then
      var s := "-" + Digits(-i);
      assert s[SignLength(s)..] == Digits(-i);
      s
    else
      var s := Digits(i);
      assert s[SignLength(s)..] == s;
      s
  }
}
