/**
 * Decimal digit strings: recognising them, reading their value (what
 * `parseInt`, `Number` and `Math.round` give for such strings) and writing
 * a natural number back as digits (what `Number.prototype.toString` gives).
 */
module Numerals {

  predicate IsDigit(c: char) { '0' <= c <= '9' }

  predicate AllDigits(s: string) { forall i | 0 <= i < |s| :: IsDigit(s[i]) }

  function DigitValue(c: char): nat
    requires IsDigit(c)
  {
    c as int - '0' as int
  }

  function DigitChar(d: nat): (c: char)
    requires d < 10
    ensures IsDigit(c) && DigitValue(c) == d
  {
    ('0' as int + d) as char
  }

  function Pow10(k: nat): (p: nat)
    ensures p >= 1
  {
    if k == 0 then 1 else 10 * Pow10(k - 1)
  }

  /** The length of the longest run of digits at the front of `s` (a greedy `\d*`). */
  function LeadingDigits(s: string): (k: nat)
    ensures k <= |s| && AllDigits(s[..k])
    ensures k < |s| ==> !IsDigit(s[k])
  {
    if s == [] || !IsDigit(s[0]) then 0
    else
      var k := 1 + LeadingDigits(s[1..]);
      assert s[..k] == [s[0]] + s[1..][..k - 1];
      k
  }

  /** The value of a digit string read in base ten; leading zeros count for nothing. */
  function DigitsValue(s: string): nat
    requires AllDigits(s)
  {
    if s == [] then 0 else 10 * DigitsValue(s[..|s| - 1]) + DigitValue(s[|s| - 1])
  }

  /** Base-ten digits of `n`, without leading zeros: what JavaScript prints for an integer. */
  function ShowNat(n: nat): (s: string)
    ensures |s| > 0 && AllDigits(s)
    ensures DigitsValue(s) == n
    ensures |s| > 1 ==> s[0] != '0'
  {
    if n < 10 then [DigitChar(n)]
    else
      var s := ShowNat(n / 10) + [DigitChar(n % 10)];
      assert s[..|s| - 1] == ShowNat(n / 10);
      s
  }

  /**
   * A decimal numeral without sign or exponent, as JavaScript's `Number`
   * accepts it: digits, optionally followed by a point and more digits,
   * with at least one digit somewhere ("3", "3.", "3.5", ".5"; not ".", "..3", "3..").
   */
  predicate IsNumeral(s: string) {
    var k := LeadingDigits(s);
    if k == |s| then k > 0
    else s[k] == '.' && AllDigits(s[k + 1..]) && (k > 0 || k + 1 < |s|)
  }

  /** The digits before the point of a numeral: what `parseInt` reads. */
  function IntegerDigits(s: string): string
    requires IsNumeral(s)
  {
    s[..LeadingDigits(s)]
  }

  function IntegerPart(s: string): nat
    requires IsNumeral(s)
  {
    DigitsValue(IntegerDigits(s))
  }

  /** The exact value of a numeral. */
  function NumeralValue(s: string): real
    requires IsNumeral(s)
  {
    var k := LeadingDigits(s);
    if k == |s| then DigitsValue(s) as real
    else DigitsValue(s[..k]) as real + DigitsValue(s[k + 1..]) as real / Pow10(|s| - k - 1) as real
  }

  /** ASCII upper-case letters to lower case; every other character is kept. */
  function LowerChar(c: char): char {
    if 'A' <= c <= 'Z' then (c as int + 32) as char else c
  }

  function Lower(s: string): string {
    seq(|s|, i requires 0 <= i < |s| => LowerChar(s[i]))
  }

  /** A digit string is worth less than ten to the power of its length. */
  lemma {:induction false} DigitsValueBound(s: string)
    requires AllDigits(s)
    ensures DigitsValue(s) < Pow10(|s|)
  {
    if s != [] {
      DigitsValueBound(s[..|s| - 1]);
    }
  }

  lemma FloorOfWholePlusFraction(i: int, f: real)
    requires 0.0 <= f < 1.0
    ensures (i as real + f).Floor == i
  {
  }

  lemma FractionBelowOne(a: nat, b: nat)
    requires a < b
    ensures 0.0 <= a as real / b as real < 1.0
  {
    var q := a as real / b as real;
    assert q * b as real == a as real;
  }

  /** `parseInt` of a numeral is the numeral's value rounded down. */
  lemma IntegerPartIsFloor(s: string)
    requires IsNumeral(s)
    ensures IntegerPart(s) == NumeralValue(s).Floor
  {
    var k := LeadingDigits(s);
    if k < |s| {
      var f := s[k + 1..];
      DigitsValueBound(f);
      FractionBelowOne(DigitsValue(f), Pow10(|f|));
      FloorOfWholePlusFraction(DigitsValue(s[..k]), DigitsValue(f) as real / Pow10(|f|) as real);
    } else {
      assert s[..k] == s;
    }
  }

  /** Digits followed by anything that does not start with a digit: the run stops where the digits do. */
  lemma {:induction false} LeadingDigitsOfConcat(a: string, b: string)
    requires AllDigits(a)
    requires b == [] || !IsDigit(b[0])
    ensures LeadingDigits(a + b) == |a|
  {
    if a != [] {
      assert (a + b)[1..] == a[1..] + b;
      LeadingDigitsOfConcat(a[1..], b);
    }
  }

  /** Reading the digits written for `n` gives `n` back, and they form a numeral. */
  lemma ShowNatIsNumeral(n: nat)
    ensures IsNumeral(ShowNat(n)) && IntegerPart(ShowNat(n)) == n
    ensures NumeralValue(ShowNat(n)) == n as real
  {
    var s := ShowNat(n);
    LeadingDigitsOfConcat(s, []);
    assert s + [] == s;
    assert s[..|s|] == s;
  }

  lemma LowerIdempotent(s: string)
    ensures Lower(Lower(s)) == Lower(s)
  {
  }
}
