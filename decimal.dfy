/** Integers as decimal text, the way JavaScript writes and reads them:
    `Number.prototype.toString()` for an integral number and
    `parseInt(s, 10)`. The session store keeps the token expiry time in
    this form. */
module Decimal {
  import opened Wrappers
  import opened Text

  predicate IsDigit(c: char) {
    '0' <= c <= '9'
  }

  predicate AllDigits(s: string) {
    forall i :: 0 <= i < |s| ==> IsDigit(s[i])
  }

  function DigitChar(d: nat): char
    requires d < 10
  {
    ('0' as int + d) as char
  }

  function DigitValue(c: char): nat
    requires IsDigit(c)
  {
    c as int - '0' as int
  }

  /** The value of a run of decimal digits, most significant first. */
  function DigitsValue(s: string): nat
    requires AllDigits(s)
  {
    if s == [] then 0 else 10 * DigitsValue(s[..|s| - 1]) + DigitValue(s[|s| - 1])
  }

  /** The decimal text of a natural number, without leading zeros. */
  function NatToString(n: nat): (s: string)
    ensures |s| >= 1 && AllDigits(s)
    ensures |s| > 1 ==> s[0] != '0'
  {
    if n < 10 then [DigitChar(n)] else NatToString(n / 10) + [DigitChar(n % 10)]
  }

  /** `n.toString()` for an integral number: a minus sign, then the digits. */
  function IntToString(n: int): (s: string)
    ensures |s| >= 1
    ensures n < 0 <==> s[0] == '-'
  {
    if n < 0 then "-" + NatToString(-n) else NatToString(n)
  }

  /** The longest prefix of `s` made of digits. */
  function DigitPrefix(s: string): (p: string)
    ensures p <= s && AllDigits(p)
    ensures |p| < |s| ==> !IsDigit(s[|p|])
  {
    if s != [] && IsDigit(s[0]) then [s[0]] + DigitPrefix(s[1..]) else []
  }

  /** `parseInt(s, 10)`: leading white space is skipped, one optional sign is
      read, then the longest run of digits. Without any digit the result is
      NaN, written `None`. */
  function ParseInt(s: string): (r: Option<int>)
    ensures r.None? <==> |DigitPrefix(UnsignedPart(TrimStart(s)))| == 0
  {
    var t := TrimStart(s);
    var digits := DigitPrefix(UnsignedPart(t));
    var magnitude: int := if |digits| == 0 then 0 else DigitsValue(digits);
    if |digits| == 0 then None
    else if |t| > 0 && t[0] == '-' then Some(-magnitude)
    else Some(magnitude)
  }

  /** What follows the optional sign character. */
  function UnsignedPart(t: string): string {
    if |t| > 0 && (t[0] == '-' || t[0] == '+') then t[1..] else t
  }

  lemma {:induction false} DigitPrefixOfDigits(s: string)
    requires AllDigits(s)
    ensures DigitPrefix(s) == s
  {
    if s != [] {
      DigitPrefixOfDigits(s[1..]);
    }
  }

  lemma {:induction false} NatToStringValue(n: nat)
    ensures DigitsValue(NatToString(n)) == n
  {
    if n >= 10 {
      var s := NatToString(n);
      NatToStringValue(n / 10);
      assert s[..|s| - 1] == NatToString(n / 10);
    }
  }

  lemma NoDigitIsSpace(c: char)
    requires IsDigit(c) || c == '-'
    ensures !IsSpace(c)
  {
  }

  /** Reading back what `toString` wrote gives the same integer: an expiry
      time stored as text is recovered exactly. */
  lemma ParseIntToString(n: int)
    ensures ParseInt(IntToString(n)) == Some(n)
  {
    var s := IntToString(n);
    NoDigitIsSpace(s[0]);
    assert TrimStart(s) == s;
    if n < 0 {
      assert UnsignedPart(s) == NatToString(-n);
      DigitPrefixOfDigits(NatToString(-n));
      NatToStringValue(-n);
    } else {
      assert UnsignedPart(s) == NatToString(n);
      DigitPrefixOfDigits(NatToString(n));
      NatToStringValue(n);
    }
  }

  /** Text that starts with a character that is neither white space, a sign
      nor a digit reads as NaN. */
  lemma ParseIntNoDigits(s: string)
    requires |s| > 0 && !IsSpace(s[0]) && !IsDigit(s[0]) && s[0] != '-' && s[0] != '+'
    ensures ParseInt(s) == None
  {
    assert TrimStart(s) == s;
  }

  /** "NaN", what `undefined * 1000` turns into once written to the store,
      reads back as NaN. */
  lemma ParseIntNaN()
    ensures ParseInt("NaN") == None
  {
    var s := "NaN";
    assert s[0] == 'N';
    ParseIntNoDigits(s);
  }
}
