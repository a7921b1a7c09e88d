/**
  The string operations the handlers rely on: the decimal text of a number (template
  literals and `toString()`), and ECMAScript's `String.prototype.trim`.
 */
module Text {

  /** The character of a decimal digit. */
  function DigitChar(d: nat): (c: char)
    requires d < 10
    ensures IsDigit(c)
  {
    ('0' as int + d) as char
  }

  /** The value of a decimal digit character. */
  function DigitValue(c: char): (d: nat)
    requires IsDigit(c)
    ensures d < 10
  {
    c as int - '0' as int
  }

  predicate IsDigit(c: char) {
    '0' <= c <= '9'
  }

  predicate IsDigits(s: string) {
    forall i {:trigger IsDigit(s[i])} :: 0 <= i < |s| ==> IsDigit(s[i])
  }

  /** The decimal text of a non-negative integer, as JavaScript prints it: no sign, no leading zeros. */
  function NatToString(n: nat): (s: string)
    ensures |s| > 0 && IsDigits(s)
    ensures |s| > 1 ==> s[0] != '0'
    decreases n
  {
    if n < 10 then [DigitChar(n)] else NatToString(n / 10) + [DigitChar(n % 10)]
  }

  /** The value of a string of decimal digits; the inverse of NatToString. */
  function DigitsToNat(s: string): nat
    requires IsDigits(s)
  {
    if s == [] then 0 else DigitsToNat(s[..|s| - 1]) * 10 + DigitValue(s[|s| - 1])
  }

  /** Reading back the decimal text of n gives n. */
  lemma {:induction false} NatToStringRoundTrip(n: nat)
    ensures DigitsToNat(NatToString(n)) == n
  {
    if n >= 10 {
      var prefix := NatToString(n / 10);
      var s := prefix + [DigitChar(n % 10)];
      assert s[..|s| - 1] == prefix;
      NatToStringRoundTrip(n / 10);
    }
  }

  /** Distinct numbers print differently, so a status code can be recovered from its message. */
  lemma NatToStringInjective(m: nat, n: nat)
    ensures NatToString(m) == NatToString(n) ==> m == n
  {
    NatToStringRoundTrip(m);
    NatToStringRoundTrip(n);
  }

  /**
    `Number.prototype.toString` of a value that is a whole number of tenths (a slider with
    step 0.1): "17.5" for 175 tenths, "2" for 20 tenths.
   */
  function TenthsToString(tenths: nat): (s: string)
    ensures NatToString(tenths / 10) <= s
    ensures |s| == |NatToString(tenths / 10)| <==> tenths % 10 == 0
    ensures tenths % 10 != 0 ==>
      && |s| == |NatToString(tenths / 10)| + 2
      && s[|s| - 2] == '.'
      && IsDigit(s[|s| - 1]) && DigitValue(s[|s| - 1]) == tenths % 10
  {
    if tenths % 10 == 0 then NatToString(tenths / 10)
    else NatToString(tenths / 10) + "." + [DigitChar(tenths % 10)]
  }

  /** The text is all digits exactly when the value is whole. */
  lemma TenthsWholeIffDigits(tenths: nat)
    ensures IsDigits(TenthsToString(tenths)) <==> tenths % 10 == 0
  {
    var s := TenthsToString(tenths);
    if tenths % 10 != 0 {
      assert !IsDigit(s[|s| - 2]);
    }
  }

  /** Distinct slider values print differently. */
  lemma TenthsToStringInjective(m: nat, n: nat)
    ensures TenthsToString(m) == TenthsToString(n) ==> m == n
  {
    var sm, sn := TenthsToString(m), TenthsToString(n);
    if sm == sn {
      TenthsWholeIffDigits(m);
      TenthsWholeIffDigits(n);
      var pm, pn := NatToString(m / 10), NatToString(n / 10);
      if m % 10 == 0 {
        NatToStringInjective(m / 10, n / 10);
      } else {
        assert DigitValue(sm[|sm| - 1]) == m % 10;
        assert sm[..|pm|] == pm && sn[..|pn|] == pn;
        NatToStringInjective(m / 10, n / 10);
      }
    }
  }

  /** `String(b)` of a boolean. */
  function BoolToString(b: bool): string {
    if b then "true" else "false"
  }

  /** ECMAScript WhiteSpace and LineTerminator code points: what `trim` removes. */
  predicate IsWhiteSpace(c: char) {
    var n := c as int;
    n == 0x09 || n == 0x0A || n == 0x0B || n == 0x0C || n == 0x0D || n == 0x20 ||
    n == 0xA0 || n == 0x1680 || (0x2000 <= n <= 0x200A) || n == 0x2028 || n == 0x2029 ||
    n == 0x202F || n == 0x205F || n == 0x3000 || n == 0xFEFF
  }

  /** Every character of s is white space (the empty string included). */
  predicate IsBlank(s: string) {
    forall i {:trigger IsWhiteSpace(s[i])} :: 0 <= i < |s| ==> IsWhiteSpace(s[i])
  }

  /** s without its leading white space. */
  function TrimStart(s: string): string
    decreases |s|
  {
    if s != [] && IsWhiteSpace(s[0]) then TrimStart(s[1..]) else s
  }

  /** TrimStart removes a prefix of white space and stops at the first other character. */
  lemma {:induction false} TrimStartRemovesBlankPrefix(s: string)
    ensures var r := TrimStart(s);
      && |r| <= |s| && r == s[|s| - |r|..]
      && IsBlank(s[..|s| - |r|])
      && (r == [] || !IsWhiteSpace(r[0]))
    decreases |s|
  {
    if s != [] && IsWhiteSpace(s[0]) {
      var r := TrimStart(s[1..]);
      TrimStartRemovesBlankPrefix(s[1..]);
      assert s[1..][..|s| - 1 - |r|] == s[1..|s| - |r|];
      assert forall i :: 1 <= i < |s| - |r| ==> s[i] == s[1..|s| - |r|][i - 1];
    }
  }

  /** s without its trailing white space. */
  function TrimEnd(s: string): string
    decreases |s|
  {
    if s != [] && IsWhiteSpace(s[|s| - 1]) then TrimEnd(s[..|s| - 1]) else s
  }

  /** TrimEnd removes a suffix of white space and stops at the last other character. */
  lemma {:induction false} TrimEndRemovesBlankSuffix(s: string)
    ensures var r := TrimEnd(s);
      && |r| <= |s| && r == s[..|r|]
      && IsBlank(s[|r|..])
      && (r == [] || !IsWhiteSpace(r[|r| - 1]))
    decreases |s|
  {
    if s != [] && IsWhiteSpace(s[|s| - 1]) {
      var r := TrimEnd(s[..|s| - 1]);
      TrimEndRemovesBlankSuffix(s[..|s| - 1]);
      assert s[..|s| - 1][|r|..] == s[|r|..|s| - 1];
      assert forall i :: |r| <= i < |s| - 1 ==> s[i] == s[|r|..|s| - 1][i - |r|];
    }
  }

  /** `s.trim()`: s without leading and trailing white space. */
  function Trim(s: string): string {
    TrimEnd(TrimStart(s))
  }

  /** `s.trim() === ""` holds exactly when s consists of white space only. */
  lemma TrimEmptyIffBlank(s: string)
    ensures Trim(s) == "" <==> IsBlank(s)
  {
    var t := TrimStart(s);
    TrimStartRemovesBlankPrefix(s);
    TrimEndRemovesBlankSuffix(t);
    if Trim(s) == "" {
      assert IsBlank(t[0..]);
      assert s[..|s| - |t|] == s;
    }
  }
}
