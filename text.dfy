/** Text operations of the integration: the decimal rendering of a numeric id inside a
    template literal, and the first-occurrence substitution `String.prototype.replace`
    performs when its pattern is a string. */
module Text {
  import opened Wrappers

  function DigitChar(d: nat): char
    requires d < 10
  {
    ('0' as int + d) as char
  }

  predicate IsDigits(s: string) {
    forall k :: 0 <= k < |s| ==> '0' <= s[k] <= '9'
  }

  /** The number a string of decimal digits denotes, most significant digit first. */
  function NumeralValue(s: string): nat
    requires IsDigits(s)
    decreases |s|
  {
    if s == [] then 0 else NumeralValue(s[..|s| - 1]) * 10 + (s[|s| - 1] as int - '0' as int)
  }

  /** The decimal numeral of `n`, as `${n}` renders a non-negative integer: digits only,
      denoting `n`, with no leading zero. */
  function Decimal(n: nat): (s: string)
    ensures |s| == 1 <==> n < 10
    ensures 1 <= |s|
    ensures IsDigits(s)
    ensures NumeralValue(s) == n
    ensures n >= 10 ==> s[0] != '0'
  {
    if n < 10 then [DigitChar(n)]
    else
      var prefix := Decimal(n / 10);
      var s := prefix + [DigitChar(n % 10)];
      assert s[..|s| - 1] == prefix;
      s
  }

  /** Different numbers render differently. */
  lemma {:induction false} DecimalInjective(n: nat, m: nat)
    ensures Decimal(n) == Decimal(m) <==> n == m
  {
    if Decimal(n) == Decimal(m) {
      var s := Decimal(n);
      if |s| == 1 {
        assert s[0] == DigitChar(n) && s[0] == DigitChar(m);
      } else {
        var t := s[..|s| - 1];
        assert Decimal(n / 10) == t;
        assert Decimal(m / 10) == t;
        DecimalInjective(n / 10, m / 10);
        assert DigitChar(n % 10) == s[|s| - 1] == DigitChar(m % 10);
      }
    }
  }

  /** `pattern` occurs in `s` starting at index `i`. */
  predicate OccursAt(s: string, pattern: string, i: nat) {
    i + |pattern| <= |s| && s[i..i + |pattern|] == pattern
  }

  /** `i` is the leftmost occurrence of `pattern` in `s`. */
  predicate IsFirstOccurrence(s: string, pattern: string, i: nat) {
    OccursAt(s, pattern, i) && forall j: nat :: j < i ==> !OccursAt(s, pattern, j)
  }

  /** The leftmost occurrence of `pattern` in `s` at or after index `i`. */
  function FindFrom(s: string, pattern: string, i: nat): (r: Option<nat>)
    ensures r.Some? ==> i <= r.value && OccursAt(s, pattern, r.value)
    ensures r.Some? ==> forall j: nat :: i <= j < r.value ==> !OccursAt(s, pattern, j)
    ensures r.None? ==> forall j: nat :: i <= j ==> !OccursAt(s, pattern, j)
    decreases |s| - i
  {
    if i + |pattern| > |s| then None
    else if s[i..i + |pattern|] == pattern then Some(i)
    else FindFrom(s, pattern, i + 1)
  }

  /** `s` with its first occurrence of `pattern`, if any, replaced by `replacement`;
      later occurrences, and occurrences inside `replacement`, are left alone. */
  function ReplaceFirst(s: string, pattern: string, replacement: string): (r: string)
    ensures (forall j: nat :: !OccursAt(s, pattern, j)) ==> r == s
    ensures forall i: nat :: IsFirstOccurrence(s, pattern, i) ==>
              r == s[..i] + replacement + s[i + |pattern|..]
  {
    match FindFrom(s, pattern, 0)
    case None => s
    case Some(i) => s[..i] + replacement + s[i + |pattern|..]
  }
}
