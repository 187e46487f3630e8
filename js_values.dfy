/**
 * The few JavaScript built-ins the modelled code relies on, written out:
 * `parseInt` on a string, `x || 0` on a parsed number, `Number.prototype.toString`
 * on an integer, `String.prototype.includes` and `String.prototype.toLowerCase`.
 * Only the ASCII repertoire is modelled for white space and letter case.
 */
module JsValues {
  import opened Wrappers

  /** The ASCII white-space characters that `parseInt` skips: space, \t, \n, \v, \f, \r. */
  predicate IsWhiteSpace(c: char) {
    c == ' ' || ('\t' <= c <= '\r')
  }

  /** `s` with its leading white space removed. */
  function TrimStart(s: string): (r: string)
    ensures |r| <= |s| && r == s[|s| - |r|..]
    ensures r == [] || !IsWhiteSpace(r[0])
  {
    if |s| > 0 && IsWhiteSpace(s[0]) then TrimStart(s[1..]) else s
  }

  /** The value of `c` as a digit in base 36 (0-9, a-z, A-Z), or 36 for any other character. */
  function DigitValue(c: char): (v: nat)
    ensures v <= 36
  {
    if '0' <= c <= '9' then c as int - '0' as int
    else if 'a' <= c <= 'z' then c as int - 'a' as int + 10
    else if 'A' <= c <= 'Z' then c as int - 'A' as int + 10
    else 36
  }

  predicate IsDigit(c: char, radix: nat) {
    DigitValue(c) < radix
  }

  /** The length of the longest prefix of `s` made of digits of base `radix`. */
  function DigitPrefixLength(s: string, radix: nat): (n: nat)
    ensures n <= |s|
  {
    if |s| > 0 && IsDigit(s[0], radix) then 1 + DigitPrefixLength(s[1..], radix) else 0
  }

  /** The value of a digit string in base `radix`, most significant digit first. */
  function DigitsValue(ds: string, radix: nat): int {
    if |ds| == 0 then 0 else DigitsValue(ds[..|ds| - 1], radix) * radix + DigitValue(ds[|ds| - 1])
  }

  /** Where `parseInt` finds its digits: the sign, the radix and the text after any prefix. */
  datatype NumberText = NumberText(negative: bool, radix: nat, body: string)

  /** After a sign, if any: the `0x`/`0X` prefix marks a hexadecimal number; decimal otherwise. */
  function ScanUnsigned(negative: bool, u: string): NumberText {
    if |u| >= 2 && u[0] == '0' && (u[1] == 'x' || u[1] == 'X')
    then NumberText(negative, 16, u[2..])
    else NumberText(negative, 10, u)
  }

  /** An optional `-` or `+` sign, then the unsigned part. */
  function ScanSigned(t: string): NumberText {
    if |t| > 0 && t[0] == '-' then ScanUnsigned(true, t[1..])
    else if |t| > 0 && t[0] == '+' then ScanUnsigned(false, t[1..])
    else ScanUnsigned(false, t)
  }

  /** Skip leading white space, then read the sign and the radix prefix. */
  function ScanNumber(s: string): NumberText {
    ScanSigned(TrimStart(s))
  }

  /**
   * `parseInt(s)` with no radix: the digits found by ScanNumber are read up
   * to the first character that is not a digit. None stands for NaN, the
   * result when no digit is found.
   */
  function ParseInt(s: string): Option<int> {
    var text := ScanNumber(s);
    var n := DigitPrefixLength(text.body, text.radix);
    if n == 0 then None
    else
      var magnitude := DigitsValue(text.body[..n], text.radix);
      Some(if text.negative then -magnitude else magnitude)
  }

  /** The decimal digit character for 0 <= d < 10. */
  function DigitChar(d: nat): (c: char)
    requires d < 10
    ensures IsDigit(c, 10) && DigitValue(c) == d
  {
    ('0' as int + d) as char
  }

  /** The decimal representation of a natural number, as `toString` gives it. */
  function NatToString(n: nat): (s: string)
    ensures |s| > 0
  {
    if n < 10 then [DigitChar(n)] else NatToString(n / 10) + [DigitChar(n % 10)]
  }

  /** `n.toString()` for an integer `n`. */
  function IntToString(n: int): string {
    if n < 0 then "-" + NatToString(-n) else NatToString(n)
  }

  /** Every character of a decimal representation is a decimal digit. */
  lemma {:induction false} NatToStringDigits(n: nat)
    ensures forall i :: 0 <= i < |NatToString(n)| ==> IsDigit(NatToString(n)[i], 10)
  {
    if n >= 10 {
      NatToStringDigits(n / 10);
    }
  }

  /** A digit string is read back whole by DigitPrefixLength. */
  lemma {:induction false} DigitPrefixOfDigits(ds: string, radix: nat)
    requires forall i :: 0 <= i < |ds| ==> IsDigit(ds[i], radix)
    ensures DigitPrefixLength(ds, radix) == |ds|
  {
    if |ds| > 0 {
      DigitPrefixOfDigits(ds[1..], radix);
    }
  }

  /** Reading back a decimal representation gives the number. */
  lemma {:induction false} DigitsValueOfNatToString(n: nat)
    ensures DigitsValue(NatToString(n), 10) == n
  {
    var s := NatToString(n);
    if n >= 10 {
      var p := NatToString(n / 10);
      assert s == p + [DigitChar(n % 10)];
      assert s[..|s| - 1] == p;
      DigitsValueOfNatToString(n / 10);
    }
  }

  /** Text that does not start with white space is left as it is by TrimStart. */
  lemma TrimStartOfNonSpace(s: string)
    requires |s| > 0 && !IsWhiteSpace(s[0])
    ensures TrimStart(s) == s
  {
  }

  /** Decimal digits are scanned as an unsigned base-10 number. */
  lemma ScanOfDigits(d: string)
    requires |d| > 0 && IsDigit(d[0], 10) && (|d| >= 2 ==> IsDigit(d[1], 10))
    ensures ScanNumber(d) == NumberText(false, 10, d)
  {
    TrimStartOfNonSpace(d);
    assert ScanSigned(d) == ScanUnsigned(false, d);
  }

  /** A minus sign followed by decimal digits is scanned as a negative base-10 number. */
  lemma ScanOfNegatedDigits(s: string, d: string)
    requires |s| > 0 && s[0] == '-' && s[1..] == d
    requires |d| > 0 && IsDigit(d[0], 10) && (|d| >= 2 ==> IsDigit(d[1], 10))
    ensures ScanNumber(s) == NumberText(true, 10, d)
  {
    TrimStartOfNonSpace(s);
    assert ScanSigned(s) == ScanUnsigned(true, d);
  }

  /** When every character after the sign and prefix is a digit, `parseInt` reads all of them. */
  lemma ParseIntOfScan(s: string, text: NumberText)
    requires ScanNumber(s) == text
    requires |text.body| > 0 && DigitPrefixLength(text.body, text.radix) == |text.body|
    ensures ParseInt(s) ==
              Some(if text.negative then -DigitsValue(text.body, text.radix) else DigitsValue(text.body, text.radix))
  {
    assert text.body[..|text.body|] == text.body;
  }

  /** A minus sign followed by decimal digits parses to the negated value of the digits. */
  lemma ParseIntOfNegatedDigits(s: string, d: string)
    requires |s| > 0 && s[0] == '-' && s[1..] == d
    requires |d| > 0 && IsDigit(d[0], 10) && (|d| >= 2 ==> IsDigit(d[1], 10))
    requires DigitPrefixLength(d, 10) == |d|
    ensures ParseInt(s) == Some(-DigitsValue(d, 10))
  {
    ScanOfNegatedDigits(s, d);
    ParseIntOfScan(s, NumberText(true, 10, d));
  }

  /** A non-empty run of decimal digits, with an optional minus sign, parses to its value. */
  lemma ParseIntOfDigits(d: string, negative: bool)
    requires |d| > 0 && IsDigit(d[0], 10) && (|d| >= 2 ==> IsDigit(d[1], 10))
    requires DigitPrefixLength(d, 10) == |d|
    ensures ParseInt(if negative then "-" + d else d) ==
              Some(if negative then -DigitsValue(d, 10) else DigitsValue(d, 10))
  {
    if negative {
      var s := "-" + d;
      assert s[1..] == d;
      ParseIntOfNegatedDigits(s, d);
    } else {
      ScanOfDigits(d);
      ParseIntOfScan(d, NumberText(false, 10, d));
    }
  }

  /** `parseInt(n.toString()) == n` for every integer n. */
  lemma ParseIntOfToString(n: int)
    ensures ParseInt(IntToString(n)) == Some(n)
  {
    var m: nat := if n < 0 then -n else n;
    NatToStringDigits(m);
    DigitsValueOfNatToString(m);
    DigitPrefixOfDigits(NatToString(m), 10);
    ParseIntOfDigits(NatToString(m), n < 0);
  }

  /** Text without any decimal digit parses to NaN. */
  lemma ParseIntWithoutDigits(s: string)
    requires forall i :: 0 <= i < |s| ==> !IsDigit(s[i], 10)
    ensures ParseInt(s) == None
  {
    var t := TrimStart(s);
    NoDigitsInSuffix(s, |s| - |t|);
    NoDigitsAfterSign(t);
    var text := ScanNumber(s);
    assert text == ScanSigned(t);
    assert DigitPrefixLength(text.body, text.radix) == 0;
  }

  /** A suffix of text without decimal digits has none either. */
  lemma NoDigitsInSuffix(s: string, k: nat)
    requires k <= |s|
    requires forall i :: 0 <= i < |s| ==> !IsDigit(s[i], 10)
    ensures forall i :: 0 <= i < |s[k..]| ==> !IsDigit(s[k..][i], 10)
  {
    forall i | 0 <= i < |s[k..]|
      ensures !IsDigit(s[k..][i], 10)
    {
      assert s[k..][i] == s[k + i];
    }
  }

  /** A scan of text without decimal digits finds no digit where the number should start. */
  lemma NoDigitsAfterSign(t: string)
    requires forall i :: 0 <= i < |t| ==> !IsDigit(t[i], 10)
    ensures ScanSigned(t).radix == 10
    ensures ScanSigned(t).body == [] || !IsDigit(ScanSigned(t).body[0], 10)
  {
    if |t| > 0 && (t[0] == '-' || t[0] == '+') {
      assert |t| >= 2 ==> !IsDigit(t[1], 10);
    }
  }

  /** `x || 0` applied to the result of `parseFloat`: NaN becomes 0. */
  function NumberOrZero(parsed: Option<real>): real {
    if parsed.Some? then parsed.value else 0.0
  }

  /** `s.includes(t)`: `t` occurs in `s` as a contiguous run. */
  predicate Includes(s: string, t: string) {
    t <= s || (|s| > 0 && Includes(s[1..], t))
  }

  /** `t` occurs in `s` starting at position `i`. */
  predicate OccursAt(s: string, t: string, i: int) {
    0 <= i <= |s| - |t| && s[i..i + |t|] == t
  }

  /** Includes agrees with the definition by positions, in both directions. */
  lemma {:induction false} IncludesAtSomePosition(s: string, t: string)
    ensures Includes(s, t) <==> exists i :: OccursAt(s, t, i)
  {
    if t <= s {
      assert OccursAt(s, t, 0);
    } else if |s| > 0 {
      IncludesAtSomePosition(s[1..], t);
      if Includes(s[1..], t) {
        var i :| OccursAt(s[1..], t, i);
        assert s[1..][i..i + |t|] == s[i + 1..i + 1 + |t|];
        assert OccursAt(s, t, i + 1);
      }
      if exists i :: OccursAt(s, t, i) {
        var i :| OccursAt(s, t, i);
        assert i != 0;
        assert s[1..][i - 1..i - 1 + |t|] == s[i..i + |t|];
        assert OccursAt(s[1..], t, i - 1);
      }
    }
  }

  /** The empty search text occurs in every string. */
  lemma IncludesEmpty(s: string)
    ensures Includes(s, "")
  {
  }

  function LowerChar(c: char): char {
    if 'A' <= c <= 'Z' then (c as int - 'A' as int + 'a' as int) as char else c
  }

  /** `s.toLowerCase()` on the ASCII letters. */
  function ToLowerCase(s: string): (r: string)
    ensures |r| == |s|
    ensures forall i :: 0 <= i < |s| ==> r[i] == LowerChar(s[i])
  {
    seq(|s|, i requires 0 <= i < |s| => LowerChar(s[i]))
  }

  /** Lower-casing twice is lower-casing once. */
  lemma ToLowerCaseIdempotent(s: string)
    ensures ToLowerCase(ToLowerCase(s)) == ToLowerCase(s)
  {
  }
}
