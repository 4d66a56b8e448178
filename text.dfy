/** String facts the bridge relies on: substring containment (Rust's
    `str::contains` with a `&str` pattern) and decimal rendering of an
    unsigned integer (Rust's `Display` for integers, as `format!` uses it). */
module Text {

  /** `needle` occurs in `s` starting at index `i`. */
  predicate OccursAt(s: string, needle: string, i: nat) {
    i + |needle| <= |s| && s[i..i + |needle|] == needle
  }

  /** `s.contains(needle)`: some index of `s` starts an occurrence of `needle`. */
  predicate Contains(s: string, needle: string): (r: bool)
    ensures r ==> |needle| <= |s|
    ensures needle == "" ==> r
  {
    assert needle == "" ==> OccursAt(s, needle, 0);
    exists i :: 0 <= i <= |s| && OccursAt(s, needle, i)
  }

  /** The empty string contains only the empty needle. */
  lemma EmptyContainsOnlyEmpty(needle: string)
    ensures Contains("", needle) <==> needle == ""
  {
    if needle == "" {
      assert OccursAt("", needle, 0);
    }
  }

  /** A needle placed anywhere inside a string is found there. */
  lemma ContainsInfix(before: string, needle: string, after: string)
    ensures Contains(before + needle + after, needle)
  {
    var s := before + needle + after;
    assert s[|before|..|before| + |needle|] == needle;
    assert OccursAt(s, needle, |before|);
  }

  /** Every string contains itself. */
  lemma ContainsSelf(s: string)
    ensures Contains(s, s)
  {
    assert OccursAt(s, s, 0);
  }

  predicate IsDigit(c: char) {
    '0' <= c <= '9'
  }

  function DigitChar(d: nat): (c: char)
    requires d < 10
    ensures IsDigit(c) && c as int - '0' as int == d
  {
    ('0' as int + d) as char
  }

  function DigitValue(c: char): (d: nat)
    requires IsDigit(c)
    ensures d < 10 && DigitChar(d) == c
  {
    c as int - '0' as int
  }

  /** Decimal rendering of `n`, most significant digit first, without
      leading zeros. */
  function NatToDecimal(n: nat): (r: string)
    ensures |r| >= 1
    ensures forall i :: 0 <= i < |r| ==> IsDigit(r[i])
    ensures r[0] == '0' ==> n == 0 && r == "0"
    decreases n
  {
    if n < 10 then [DigitChar(n)] else NatToDecimal(n / 10) + [DigitChar(n % 10)]
  }

  /** The value of a string of decimal digits. */
  function DecimalValue(s: string): nat
    requires forall i :: 0 <= i < |s| ==> IsDigit(s[i])
  {
    if s == [] then 0
    else DecimalValue(s[..|s| - 1]) * 10 + DigitValue(s[|s| - 1])
  }

  /** Reading back the rendering gives the number. */
  lemma {:induction false} DecimalRoundTrip(n: nat)
    ensures DecimalValue(NatToDecimal(n)) == n
    decreases n
  {
    var r := NatToDecimal(n);
    if n >= 10 {
      DecimalRoundTrip(n / 10);
      assert r[..|r| - 1] == NatToDecimal(n / 10);
    }
  }

  /** Distinct numbers render differently. */
  lemma DecimalInjective(m: nat, n: nat)
    requires NatToDecimal(m) == NatToDecimal(n)
    ensures m == n
  {
    DecimalRoundTrip(m);
    DecimalRoundTrip(n);
  }
}
