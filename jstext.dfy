/**
 * The JavaScript string operations the application relies on, written out:
 * the whitespace class shared by String.prototype.trim and the regular-expression
 * class \s, trimming, startsWith, includes, the UTF-16 length that `.length`
 * reports, parseInt with radix 10, and the decimal rendering of integers used
 * inside template literals.
 */
module JsText {
  import opened Wrappers

  /** WhiteSpace and LineTerminator code points of ECMAScript, the set that both
      String.prototype.trim removes and \s matches. */
  predicate IsWs(c: char) {
    c == ' ' || c == '\t' || c == '\n' || c == '\r' || c == '\U{B}' || c == '\U{C}'
    || c == '\U{A0}' || c == '\U{1680}' || ('\U{2000}' <= c <= '\U{200A}')
    || c == '\U{2028}' || c == '\U{2029}' || c == '\U{202F}' || c == '\U{205F}'
    || c == '\U{3000}' || c == '\U{FEFF}'
  }

  predicate AllWs(s: string) {
    forall i :: 0 <= i < |s| ==> IsWs(s[i])
  }

  /** The leading-whitespace half of trim (and of the regex prefix \s*): a suffix of s. */
  function TrimStart(s: string): (r: string)
    ensures |r| <= |s| && r == s[|s| - |r|..]
    ensures r != [] ==> !IsWs(r[0])
    decreases |s|
  {
    if s != [] && IsWs(s[0]) then TrimStart(s[1..]) else s
  }

  /** What TrimStart drops is whitespace. */
  lemma {:induction false} TrimStartDropsWs(s: string)
    ensures AllWs(s[..|s| - |TrimStart(s)|])
    decreases |s|
  {
    if s != [] && IsWs(s[0]) {
      TrimStartDropsWs(s[1..]);
      var k := |s| - |TrimStart(s)|;
      assert s[..k] == [s[0]] + s[1..][..k - 1];
    }
  }

  /** The trailing-whitespace half of trim: a prefix of s. */
  function TrimEnd(s: string): (r: string)
    ensures |r| <= |s| && r == s[..|r|]
    ensures r != [] ==> !IsWs(r[|r| - 1])
    decreases |s|
  {
    if s != [] && IsWs(s[|s| - 1]) then TrimEnd(s[..|s| - 1]) else s
  }

  /** What TrimEnd drops is whitespace. */
  lemma {:induction false} TrimEndDropsWs(s: string)
    ensures AllWs(s[|TrimEnd(s)|..])
    decreases |s|
  {
    if s != [] && IsWs(s[|s| - 1]) {
      TrimEndDropsWs(s[..|s| - 1]);
      var k := |TrimEnd(s)|;
      assert s[k..] == s[..|s| - 1][k..] + [s[|s| - 1]];
    }
  }

  /** String.prototype.trim: whitespace removed at both ends. */
  function Trim(s: string): (r: string)
    ensures |r| <= |s|
    ensures r != [] ==> !IsWs(r[0]) && !IsWs(r[|r| - 1])
  {
    TrimEnd(TrimStart(s))
  }

  /** What trim leaves is the slice of s between a whitespace prefix and a whitespace suffix. */
  lemma TrimIsSlice(s: string) returns (i: nat)
    ensures i + |Trim(s)| <= |s| && Trim(s) == s[i..i + |Trim(s)|]
    ensures AllWs(s[..i]) && AllWs(s[i + |Trim(s)|..])
  {
    var t := TrimStart(s);
    var r := TrimEnd(t);
    TrimStartDropsWs(s);
    TrimEndDropsWs(t);
    i := |s| - |t|;
    assert t == s[i..];
    assert r == t[..|r|];
    assert s[i..i + |r|] == t[..|r|];
    assert s[i + |r|..] == t[|r|..];
  }

  /** Nothing but whitespace: what `!s.trim()` tests. */
  predicate Blank(s: string)
    decreases |s|
  {
    s == [] || (IsWs(s[0]) && Blank(s[1..]))
  }

  lemma {:induction false} BlankIsAllWs(s: string)
    ensures Blank(s) <==> AllWs(s)
    decreases |s|
  {
    if s != [] {
      BlankIsAllWs(s[1..]);
      assert forall i :: 1 <= i < |s| ==> s[i] == s[1..][i - 1];
    }
  }

  /** trim leaves the empty string exactly when the string is blank. */
  lemma BlankIffTrimEmpty(s: string)
    ensures Blank(s) <==> Trim(s) == ""
  {
    BlankIsAllWs(s);
    var i := TrimIsSlice(s);
    if Trim(s) == "" {
      assert s == s[..i] + s[i..];
      assert forall k :: 0 <= k < |s| ==> IsWs(s[k]) by {
        forall k | 0 <= k < |s| ensures IsWs(s[k]) {
          if k < i { assert s[k] == s[..i][k]; } else { assert s[k] == s[i..][k - i]; }
        }
      }
    }
  }

  /** Neither end is whitespace. */
  predicate Trimmed(s: string) {
    s == [] || (!IsWs(s[0]) && !IsWs(s[|s| - 1]))
  }

  /** Trim leaves a string alone exactly when neither of its ends is whitespace. */
  lemma TrimOfTrimmed(s: string)
    ensures Trim(s) == s <==> Trimmed(s)
  {
  }

  /** Trim is idempotent. */
  lemma TrimIdempotent(s: string)
    ensures Trim(Trim(s)) == Trim(s)
  {
    TrimOfTrimmed(Trim(s));
  }

  /** String.prototype.startsWith. */
  predicate StartsWith(s: string, prefix: string): (b: bool)
    ensures b <==> OccursAt(s, prefix, 0)
  {
    |prefix| <= |s| && s[..|prefix|] == prefix
  }

  /** String.prototype.includes. */
  predicate Contains(s: string, sub: string): (b: bool)
    ensures b ==> |sub| <= |s|
    ensures sub == [] ==> b
    decreases |s|
  {
    StartsWith(s, sub) || (s != [] && Contains(s[1..], sub))
  }

  /** sub occurs in s at index i. */
  predicate OccursAt(s: string, sub: string, i: int) {
    0 <= i <= |s| - |sub| && s[i..i + |sub|] == sub
  }

  /** The recursive definition of Contains agrees with "sub occurs at some index". */
  lemma {:induction false} ContainsAt(s: string, sub: string)
    ensures Contains(s, sub) <==> exists i :: OccursAt(s, sub, i)
    decreases |s|
  {
    if StartsWith(s, sub) {
      assert OccursAt(s, sub, 0);
    } else if s != [] {
      ContainsAt(s[1..], sub);
      if Contains(s[1..], sub) {
        var i :| OccursAt(s[1..], sub, i);
        assert s[i + 1..i + 1 + |sub|] == s[1..][i..i + |sub|];
        assert OccursAt(s, sub, i + 1);
      }
      if exists i :: OccursAt(s, sub, i) {
        var i :| OccursAt(s, sub, i);
        assert i != 0;
        assert s[1..][i - 1..i - 1 + |sub|] == s[i..i + |sub|];
        assert OccursAt(s[1..], sub, i - 1);
      }
    }
  }

  /** `.length` of a JavaScript string: UTF-16 code units, two for a character
      outside the Basic Multilingual Plane. */
  function JsLength(s: string): (n: nat)
    ensures n >= |s|
  {
    if s == [] then 0 else (if s[0] as int > 0xFFFF then 2 else 1) + JsLength(s[1..])
  }

  lemma {:induction false} JsLengthOfBmp(s: string)
    requires forall i :: 0 <= i < |s| ==> s[i] as int <= 0xFFFF
    ensures JsLength(s) == |s|
  {
    if s != [] {
      JsLengthOfBmp(s[1..]);
    }
  }

  function DigitChar(d: nat): char
    requires d < 10
  {
    "0123456789"[d]
  }

  predicate IsDigit(c: char) {
    '0' <= c <= '9'
  }

  /** Decimal rendering of a non-negative integer, as String(n) gives it. */
  function NatToString(n: nat): (s: string)
    ensures |s| >= 1
    ensures forall i :: 0 <= i < |s| ==> IsDigit(s[i])
  {
    if n < 10 then [DigitChar(n)] else NatToString(n / 10) + [DigitChar(n % 10)]
  }

  /** Decimal rendering of an integer, as a template literal gives it. */
  function IntToString(i: int): string {
    if i < 0 then "-" + NatToString(-i) else NatToString(i)
  }

  /** The longest prefix of digits. */
  function DigitPrefix(s: string): (d: string)
    ensures StartsWith(s, d)
    ensures forall i :: 0 <= i < |d| ==> IsDigit(d[i])
    ensures |d| < |s| ==> !IsDigit(s[|d|])
  {
    if s != [] && IsDigit(s[0]) then [s[0]] + DigitPrefix(s[1..]) else []
  }

  function DigitValue(c: char): nat
    requires IsDigit(c)
  {
    c as int - '0' as int
  }

  /** The value of a string of decimal digits, read left to right. */
  function DigitsValue(d: string): nat
    requires forall i :: 0 <= i < |d| ==> IsDigit(d[i])
  {
    if d == [] then 0 else 10 * DigitsValue(d[..|d| - 1]) + DigitValue(d[|d| - 1])
  }

  /** The longest run of leading digits as a number; None when there is none. */
  function LeadingDigits(u: string): (r: Option<nat>)
    ensures r.Some? <==> u != [] && IsDigit(u[0])
  {
    var d := DigitPrefix(u);
    if d == [] then None else Some(DigitsValue(d))
  }

  /** What parseInt reads after the whitespace: an optional sign, then digits. */
  function SignedDigits(t: string): (r: Option<int>)
    ensures r.Some? <==> (t != [] && IsDigit(t[0])) || (|t| >= 2 && (t[0] == '-' || t[0] == '+') && IsDigit(t[1]))
    ensures r.Some? && t != [] && t[0] == '-' ==> r.value <= 0
    ensures r.Some? && (t == [] || t[0] != '-') ==> r.value >= 0
  {
    if t != [] && t[0] == '-' then
      match LeadingDigits(t[1..]) case None => None case Some(n) => Some(-(n as int))
    else if t != [] && t[0] == '+' then
      match LeadingDigits(t[1..]) case None => None case Some(n) => Some(n as int)
    else
      match LeadingDigits(t) case None => None case Some(n) => Some(n as int)
  }

  /**
   * parseInt(s, 10): skip leading whitespace, read an optional sign and the
   * longest run of decimal digits. None stands for NaN (no digit at all).
   */
  function ParseIntJs(s: string): (r: Option<int>)
    ensures var t := TrimStart(s);
      r.Some? <==> (t != [] && IsDigit(t[0])) || (|t| >= 2 && (t[0] == '-' || t[0] == '+') && IsDigit(t[1]))
    ensures var t := TrimStart(s); r.Some? && t != [] && t[0] == '-' ==> r.value <= 0
    ensures var t := TrimStart(s); r.Some? && (t == [] || t[0] != '-') ==> r.value >= 0
  {
    SignedDigits(TrimStart(s))
  }

  lemma {:induction false} DigitPrefixOfDigits(s: string)
    requires forall i :: 0 <= i < |s| ==> IsDigit(s[i])
    ensures DigitPrefix(s) == s
  {
    if s != [] {
      DigitPrefixOfDigits(s[1..]);
    }
  }

  lemma {:induction false} DigitsValueOfNatToString(n: nat)
    ensures DigitsValue(NatToString(n)) == n
  {
    if n >= 10 {
      DigitsValueOfNatToString(n / 10);
      var s := NatToString(n / 10) + [DigitChar(n % 10)];
      assert NatToString(n) == s;
      assert s[..|s| - 1] == NatToString(n / 10);
      DigitValueOfDigitChar(n % 10);
      assert DigitsValue(s) == 10 * (n / 10) + n % 10;
    } else {
      DigitValueOfDigitChar(n);
    }
  }

  lemma DigitValueOfDigitChar(d: nat)
    requires d < 10
    ensures IsDigit(DigitChar(d)) && DigitValue(DigitChar(d)) == d
  {
  }

  /** The digits String(n) writes are read back as n. */
  lemma LeadingDigitsOfNatToString(n: nat)
    ensures LeadingDigits(NatToString(n)) == Some(n)
  {
    DigitPrefixOfDigits(NatToString(n));
    DigitsValueOfNatToString(n);
  }

  /** parseInt reads back what String(n) writes, for every non-negative integer. */
  lemma ParseIntOfNatToString(n: nat)
    ensures ParseIntJs(NatToString(n)) == Some(n)
  {
    var s := NatToString(n);
    assert IsDigit(s[0]);
    assert TrimStart(s) == s;
    LeadingDigitsOfNatToString(n);
  }

  /** A minus sign in front of digits is kept by the whitespace skip and read as a negation. */
  lemma MinusDigits(s: string, n: nat)
    requires LeadingDigits(s) == Some(n)
    ensures ParseIntJs("-" + s) == Some(-(n as int))
  {
    var t := "-" + s;
    assert t[0] == '-' && t[1..] == s;
    assert TrimStart(t) == t by { assert !IsWs(t[0]); }
  }

  /** parseInt reads back what IntToString writes for a negative integer. */
  lemma ParseIntOfNegative(i: int)
    requires i < 0
    ensures ParseIntJs(IntToString(i)) == Some(i)
  {
    LeadingDigitsOfNatToString(-i);
    MinusDigits(NatToString(-i), -i);
  }

  /** parseInt also reads back negative integers written by IntToString. */
  lemma ParseIntOfIntToString(i: int)
    ensures ParseIntJs(IntToString(i)) == Some(i)
  {
    if i < 0 {
      ParseIntOfNegative(i);
    } else {
      ParseIntOfNatToString(i);
    }
  }
}
