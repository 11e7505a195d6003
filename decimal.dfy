/**
 * Decimal rendering of non-negative integers, as JavaScript's template
 * literals produce it (`${index}`), and the inverse reading used when a
 * string is looked up as an array index: an index string is canonical
 * (only digits, no leading zero unless it is "0").
 */
module Decimal {
  import opened Wrappers

  predicate IsDigit(c: char) { '0' <= c <= '9' }

  function DigitChar(d: nat): (c: char)
    requires d < 10
    ensures IsDigit(c) && c as int - '0' as int == d
  {
    (d + '0' as int) as char
  }

  /** The decimal numeral of `n`, without sign or leading zeros. */
  function NatToString(n: nat): string
    decreases n
  {
    if n < 10 then [DigitChar(n)] else NatToString(n / 10) + [DigitChar(n % 10)]
  }

  predicate AllDigits(s: string) {
    forall k :: 0 <= k < |s| ==> IsDigit(s[k])
  }

  /** Strings an array is indexed by: decimal numerals without a leading zero. */
  predicate IsCanonicalIndex(s: string) {
    s != "" && AllDigits(s) && (s[0] == '0' ==> |s| == 1)
  }

  /** The value of a string of digits. */
  function DigitsValue(s: string): nat
    requires AllDigits(s)
    decreases |s|
  {
    if s == "" then 0 else DigitsValue(s[..|s| - 1]) * 10 + (s[|s| - 1] as int - '0' as int)
  }

  /** Reads `s` as an array index, or None when `s` is not a canonical numeral. */
  function ParseIndex(s: string): (r: Option<nat>)
    ensures r.Some? <==> IsCanonicalIndex(s)
  {
    if IsCanonicalIndex(s) then Some(DigitsValue(s)) else None
  }

  /** Every rendered numeral is canonical. */
  lemma {:induction false} NatToStringCanonical(n: nat)
    ensures IsCanonicalIndex(NatToString(n))
    ensures NatToString(n)[0] == '0' ==> n == 0
    decreases n
  {
    if n >= 10 {
      NatToStringCanonical(n / 10);
      var s := NatToString(n);
      assert s[..|s| - 1] == NatToString(n / 10);
    }
  }

  lemma {:induction false} DigitsValueOfNatToString(n: nat)
    ensures AllDigits(NatToString(n)) && DigitsValue(NatToString(n)) == n
    decreases n
  {
    NatToStringCanonical(n);
    if n >= 10 {
      DigitsValueOfNatToString(n / 10);
      var s := NatToString(n);
      assert s[..|s| - 1] == NatToString(n / 10);
    }
  }

  /** Rendering an index and reading it back gives the index. */
  lemma ParseNatToString(n: nat)
    ensures ParseIndex(NatToString(n)) == Some(n)
  {
    NatToStringCanonical(n);
    DigitsValueOfNatToString(n);
  }

  lemma {:induction false} CanonicalValuePositive(s: string)
    requires IsCanonicalIndex(s) && s[0] != '0'
    ensures DigitsValue(s) > 0
    decreases |s|
  {
    if |s| > 1 {
      var init := s[..|s| - 1];
      assert init[0] == s[0];
      CanonicalValuePositive(init);
    }
  }

  /** Reading a canonical numeral and rendering the value gives the numeral back. */
  lemma {:induction false} NatToStringOfParse(s: string)
    requires IsCanonicalIndex(s)
    ensures NatToString(DigitsValue(s)) == s
    decreases |s|
  {
    if |s| > 1 {
      var init := s[..|s| - 1];
      assert init[0] == s[0];
      CanonicalValuePositive(s);
      CanonicalValuePositive(init);
      NatToStringOfParse(init);
      var n := DigitsValue(s);
      assert n / 10 == DigitsValue(init) && n % 10 == s[|s| - 1] as int - '0' as int;
      assert s == init + [s[|s| - 1]];
    }
  }

  /** Distinct indices render to distinct numerals. */
  lemma NatToStringInjective(a: nat, b: nat)
    requires NatToString(a) == NatToString(b)
    ensures a == b
  {
    ParseNatToString(a);
    ParseNatToString(b);
  }
}
