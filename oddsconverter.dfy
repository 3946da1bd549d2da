/**
 * The odds converter of lib/oddsconverter.js: it detects whether a price is
 * written as a fraction ("10/1"), an American moneyline ("+800", "-400") or
 * a decimal (6, "1.25"), and gives the price in all three notations.
 * Decimal prices are exact reals here; the fractional and American
 * notations are kept as structured values, and ShowFraction/ShowMoneyline
 * give the strings the converter prints.
 */
module OddsConverter {
  import opened Wrappers
  import opened Numerals
  import opened Divisibility

  /** A price as a caller passes it: a string, or a number. */
  datatype Odds = Text(s: string) | Number(x: real)

  datatype Format = Fractional | American | Decimal

  /** The two errors the converter throws. */
  datatype ConvertError =
    | UnrecognisedFormat  // "Cannot fathom odds format"
    | InvalidPrice        // "Invalid price: ..."

  /** A fractional price `numerator/denominator`. */
  datatype Fraction = Fraction(numerator: nat, denominator: nat)

  /**
   * An American price: a sign and a whole magnitude. A decimal price of
   * exactly 1 has no moneyline; the converter then prints "INaN"
   * (the first letter of "Infinity" followed by NaN), here NotANumber.
   */
  datatype Moneyline = Line(positive: bool, magnitude: nat) | NotANumber

  /** The record `convert` returns. */
  datatype Converted = Converted(originalFormat: Format, fractional: Fraction, decimal: real, american: Moneyline)

  /** The fixed denominator a decimal price is scaled by before reduction: 10^8. */
  const Scale: nat := 100000000

  /** JavaScript's `Math.round`: to the nearest integer, halves upwards. */
  function Round(x: real): int {
    (x + 0.5).Floor
  }

  function ShowFraction(f: Fraction): string {
    ShowNat(f.numerator) + "/" + ShowNat(f.denominator)
  }

  function ShowMoneyline(m: Moneyline): string {
    match m
    case Line(positive, magnitude) => (if positive then "+" else "-") + ShowNat(magnitude)
    case NotANumber => "INaN"
  }

  // ---------------------------------------------------------------------
  // greatestCommonFactor

  /** The quotient of JavaScript's `%`: rounded towards zero. */
  function TruncatedQuotient(a: int, b: int): int
    requires b != 0
  {
    if a >= 0 then a / b else -((-a) / b)
  }

  /** JavaScript's `a % b` on integers: the remainder takes the sign of the dividend. */
  function JsRemainder(a: int, b: int): (r: int)
    requires b != 0
    ensures Abs(r) < Abs(b)
    ensures a >= 0 ==> r >= 0
    ensures a <= 0 ==> r <= 0
  {
    a - TruncatedQuotient(a, b) * b
  }

  /** Replacing `a` by `a % b` keeps the common divisors of the pair. */
  lemma RemainderKeepsDivisors(a: int, b: int)
    requires b != 0
    ensures forall c :: Divides(c, b) && Divides(c, JsRemainder(a, b)) <==> Divides(c, a) && Divides(c, b)
  {
    forall c | Divides(c, b)
      ensures Divides(c, JsRemainder(a, b)) <==> Divides(c, a)
    {
      DividesLinear(c, a, b, TruncatedQuotient(a, b));
    }
  }

  /** The `while (b !== 0)` loop of greatestCommonFactor, on integers. */
  method GreatestCommonFactor(a0: int, b0: int) returns (g: int)
    ensures IsGcd(g, a0, b0)
  {
    var a, b := a0, b0;
    while b != 0
      invariant forall c :: Divides(c, a) && Divides(c, b) <==> Divides(c, a0) && Divides(c, b0)
      decreases Abs(b)
    {
      var remainder := JsRemainder(a, b);
      RemainderKeepsDivisors(a, b);
      a := b;
      b := remainder;
    }
    g := Abs(a);
    forall c ensures Divides(c, g) <==> Divides(c, a) && Divides(c, b) {
      DividesNegation(c, a);
    }
  }

  // ---------------------------------------------------------------------
  // decimalToFractional

  lemma ScaledNumeratorNonNegative(x: real)
    requires x > 1.0
    ensures Round((x - 1.0) * Scale as real) >= 0
  {
  }

  /** round((x - 1) * 10^8): the numerator over 10^8 before reduction. */
  function ScaledNumerator(x: real): nat
    requires x > 1.0
  {
    ScaledNumeratorNonNegative(x);
    Round((x - 1.0) * Scale as real)
  }

  /**
   * What decimalToFractional returns: a decimal price above 1 less one,
   * rounded to a multiple of 10^-8 and reduced to lowest terms.
   */
  function FractionOf(x: real): Result<Fraction, ConvertError> {
    if x <= 1.0 then Err(InvalidPrice)
    else
      Ok(Reduce(ScaledNumerator(x), Scale))
  }

  /** A numerator and a positive denominator divided by their greatest common divisor. */
  function Reduce(n: nat, d: nat): Fraction
    requires d > 0
  {
    var g := Gcd(n, d);
    Fraction(n / g, d / g)
  }

  /** One pass of the reduction loop: dividing both parts by their gcd `f` leaves them coprime. */
  lemma ReductionStep(n0: int, d0: int, n: int, d: int, removed: int, f: int)
    requires n >= 0 && d > 0 && removed > 0 && f > 1
    requires n0 == n * removed && d0 == d * removed
    requires IsGcd(f, n, d)
    ensures n / f >= 0 && 0 < d / f < d
    ensures n0 == (n / f) * (removed * f) && d0 == (d / f) * (removed * f)
    ensures IsGcd(1, n / f, d / f)
  {
    QuotientsByGcdCoprime(f, n, d);
    var n', d' := n / f, d / f;
    assert n == f * n' && d == f * d';
    MulMonotone(d', 2, f);
    MulMonotone(f, 0, n');
    MulMonotone(f, 0, d');
  }

  method DecimalToFractional(x: real) returns (r: Result<Fraction, ConvertError>)
    ensures r == FractionOf(x)
  {
    if x <= 1.0 {
      return Err(InvalidPrice);
    }
    var numerator: int := ScaledNumerator(x);
    var denominator: int := Scale;
    ghost var n0, d0 := numerator, denominator;
    ghost var g := Gcd(n0, d0);
    GcdIsGcd(n0, d0);
    ghost var removed: int := 1;
    var factor := GreatestCommonFactor(numerator, denominator);
    GcdUnique(factor, g, numerator, denominator);
    while factor > 1
      invariant numerator >= 0 && denominator > 0 && removed > 0
      invariant n0 == numerator * removed && d0 == denominator * removed
      invariant IsGcd(factor, numerator, denominator) && factor * removed == g
      decreases denominator
    {
      ReductionStep(n0, d0, numerator, denominator, removed, factor);
      removed := removed * factor;
      numerator := numerator / factor;
      denominator := denominator / factor;
      factor := GreatestCommonFactor(numerator, denominator);
      GcdUnique(factor, 1, numerator, denominator);
    }
    GcdIsGreatest(factor, numerator, denominator);
    assert removed == g;
    DivModUnique(n0, g, numerator, 0);
    DivModUnique(d0, g, denominator, 0);
    r := Ok(Fraction(numerator, denominator));
  }

  // ---------------------------------------------------------------------
  // whichFormatIs

  predicate IsSeparator(c: char) {
    c == '/' || c == '-' || c == ':'
  }

  /** `^\d+[\/\-\:]\d+$`: digits, one separator, digits. */
  predicate IsFractionalText(s: string) {
    var k := LeadingDigits(s);
    0 < k < |s| - 1 && IsSeparator(s[k]) && AllDigits(s[k + 1..])
  }

  /** `^[\+\-]`: a leading sign. */
  predicate IsSignedText(s: string) {
    |s| > 0 && (s[0] == '+' || s[0] == '-')
  }

  /** Fractional first, then American, then decimal; anything else is not a price. */
  function WhichFormatIs(o: Odds): Result<Format, ConvertError> {
    match o
    case Text(s) =>
      if IsFractionalText(s) then Ok(Fractional)
      else if IsSignedText(s) then Ok(American)
      else if IsNumeral(s) then Ok(Decimal)
      else Err(UnrecognisedFormat)
    case Number(x) =>
      // a negative number prints with a leading "-"
      if x < 0.0 then Ok(American) else Ok(Decimal)
  }

  // ---------------------------------------------------------------------
  // formatFractional, fractionalToDecimal

  /** The two whole numbers on either side of the separator. */
  function FractionParts(s: string): (nat, nat)
    requires IsFractionalText(s)
  {
    var k := LeadingDigits(s);
    (DigitsValue(s[..k]), DigitsValue(s[k + 1..]))
  }

  /** formatFractional(odds, "/"): the same numbers, the separator written as "/". */
  function FormatFractional(s: string): Result<Fraction, ConvertError>
    requires IsFractionalText(s)
  {
    var (n, d) := FractionParts(s);
    if d <= 0 then Err(InvalidPrice) else Ok(Fraction(n, d))
  }

  function FractionalToDecimal(s: string): Result<real, ConvertError>
    requires IsFractionalText(s)
  {
    var (n, d) := FractionParts(s);
    if d <= 0 then Err(InvalidPrice) else Ok(1.0 + n as real / d as real)
  }

  // ---------------------------------------------------------------------
  // americanToDecimal, formatAmerican

  /**
   * The sign of an American price and the whole magnitude `parseInt`
   * reads after it; None when the price is not numeric after its sign.
   */
  function AmericanParts(o: Odds): Option<(bool, nat)> {
    match o
    case Text(s) =>
      if IsSignedText(s) && IsNumeral(s[1..]) && LeadingDigits(s[1..]) > 0
      then Some((s[0] == '+', IntegerPart(s[1..])))
      else None
    case Number(x) =>
      if x < 0.0 then Some((false, (-x).Floor)) else None
  }

  lemma LongOddsBound(n: nat)
    requires n >= 100
    ensures (n as real + 100.0) / 100.0 >= 2.0
  {
  }

  /**
   * "+N" is (N + 100) / 100 and must be at least 2; "-N" is (N + 100) / N
   * and must be below 2 (N = 0 divides by zero, giving Infinity).
   * A positive price thus lies at or above evens, a negative one strictly
   * between 1 and 2.
   */
  function AmericanToDecimal(o: Odds): (r: Result<real, ConvertError>)
    ensures r.Ok? ==> AmericanParts(o).Some?
    ensures r.Ok? && AmericanParts(o).value.0 ==> r.value >= 2.0
    ensures r.Ok? && !AmericanParts(o).value.0 ==> 1.0 < r.value < 2.0
  {
    match AmericanParts(o)
    case None => Err(InvalidPrice)
    case Some((positive, n)) =>
      if positive then
        var d := (n as real + 100.0) / 100.0;
        if d < 2.0 then Err(InvalidPrice) else Ok(d)
      else if n == 0 then Err(InvalidPrice)
      else
        var d := (n as real + 100.0) / n as real;
        if d >= 2.0 then Err(InvalidPrice) else Ok(d)
  }

  /** formatAmerican: the sign character of the input and its whole magnitude. */
  function FormatAmerican(o: Odds): Moneyline
    requires AmericanParts(o).Some?
  {
    var (positive, n) := AmericanParts(o).value;
    Line(positive, n)
  }

  // ---------------------------------------------------------------------
  // decimalToAmerican

  /** Below evens, 100 / (1 - x) is at most -100, so its rounding is too. */
  lemma ShortOddsBound(x: real)
    requires 1.0 < x < 2.0
    ensures Round(100.0 / (1.0 - x)) <= -100
  {
    var y := 1.0 - x;
    var v := 100.0 / y;
    assert v * y == 100.0;
    assert (v + 100.0) * y == 100.0 * (1.0 + y) > 0.0;
  }

  /**
   * Below 2: "-" and the magnitude of round(100 / (1 - x)); from 2 up:
   * "+" and round(100 * (x - 1)).
   */
  function DecimalToAmerican(x: real): Moneyline
    requires x >= 1.0
  {
    if x == 1.0 then NotANumber
    else if x < 2.0 then
      ShortOddsBound(x);
      Line(false, -Round(100.0 / (1.0 - x)))
    else Line(true, Round(100.0 * (x - 1.0)))
  }

  // ---------------------------------------------------------------------
  // convert

  /** The value of a price detected as decimal. */
  function DecimalValue(o: Odds): real
    requires WhichFormatIs(o) == Ok(Decimal)
  {
    match o
    case Text(s) => NumeralValue(s)
    case Number(x) => x
  }

  /** What `convert` returns for a price, or the error it throws. */
  function ConvertSpec(o: Odds): Result<Converted, ConvertError> {
    match WhichFormatIs(o)
    case Err(e) => Err(e)
    case Ok(Fractional) =>
      var s := o.s;
      (match FormatFractional(s)
       case Err(e) => Err(e)
       case Ok(fraction) =>
         var d := FractionalToDecimal(s).value;
         Ok(Converted(Fractional, fraction, d, DecimalToAmerican(d))))
    case Ok(American) =>
      (match AmericanToDecimal(o)
       case Err(e) => Err(e)
       case Ok(d) => Ok(Converted(American, FractionOf(d).value, d, FormatAmerican(o))))
    case Ok(Decimal) =>
      var x := DecimalValue(o);
      match FractionOf(x)
      case Err(e) => Err(e)
      case Ok(fraction) => Ok(Converted(Decimal, fraction, x, DecimalToAmerican(x)))
  }

  /**
   * The decimal price alone, as the settlement engine uses it: the field
   * `decimal` of convert's record, computed without the other fields.
   */
  function ToDecimal(o: Odds): Result<real, ConvertError> {
    match WhichFormatIs(o)
    case Err(e) => Err(e)
    case Ok(Fractional) => FractionalToDecimal(o.s)
    case Ok(American) => AmericanToDecimal(o)
    case Ok(Decimal) => if DecimalValue(o) <= 1.0 then Err(InvalidPrice) else Ok(DecimalValue(o))
  }

  /** ToDecimal is `convert(o).decimal`, failing exactly where convert fails. */
  lemma ToDecimalIsConvertDecimal(o: Odds)
    ensures ToDecimal(o).Err? <==> ConvertSpec(o).Err?
    ensures ToDecimal(o).Err? ==> ToDecimal(o).error == ConvertSpec(o).error
    ensures ToDecimal(o).Ok? ==> ToDecimal(o).value == ConvertSpec(o).value.decimal
  {
  }

  /** convert(odds): detect the format, then fill in the record field by field. */
  method Convert(o: Odds) returns (r: Result<Converted, ConvertError>)
    ensures r == ConvertSpec(o)
  {
    var format := WhichFormatIs(o);
    if format.Err? {
      return Err(format.error);
    }
    match format.value {
      case Fractional =>
        var fractional := FormatFractional(o.s);
        if fractional.Err? {
          return Err(fractional.error);
        }
        var decimal := FractionalToDecimal(o.s).value;
        var american := DecimalToAmerican(decimal);
        r := Ok(Converted(Fractional, fractional.value, decimal, american));
      case American =>
        var decimal := AmericanToDecimal(o);
        if decimal.Err? {
          return Err(decimal.error);
        }
        var american := FormatAmerican(o);
        var fractional := DecimalToFractional(decimal.value);
        r := Ok(Converted(American, fractional.value, decimal.value, american));
      case Decimal =>
        var fractional := DecimalToFractional(DecimalValue(o));
        if fractional.Err? {
          return Err(fractional.error);
        }
        var decimal := DecimalValue(o);
        var american := DecimalToAmerican(decimal);
        r := Ok(Converted(Decimal, fractional.value, decimal, american));
    }
  }
}
