/** Properties of the odds converter: format detection, ranges, reductions and round trips. */
module OddsConverterProps {
  import opened Wrappers
  import opened Numerals
  import opened Divisibility
  import opened OddsConverter

  // ---------------------------------------------------------------------
  // Format detection

  /** The fractional test is the regular expression `^\d+[\/\-\:]\d+$`: some split into digits, separator, digits. */
  lemma FractionalTextShape(s: string)
    ensures IsFractionalText(s) <==>
      exists i :: 0 < i < |s| - 1 && IsSeparator(s[i]) && AllDigits(s[..i]) && AllDigits(s[i + 1..])
  {
    if exists i :: 0 < i < |s| - 1 && IsSeparator(s[i]) && AllDigits(s[..i]) && AllDigits(s[i + 1..]) {
      var i :| 0 < i < |s| - 1 && IsSeparator(s[i]) && AllDigits(s[..i]) && AllDigits(s[i + 1..]);
      assert s == s[..i] + s[i..];
      LeadingDigitsOfConcat(s[..i], s[i..]);
    }
  }

  /** A text with a leading sign is never fractional, and a fractional text is never a plain numeral. */
  lemma FormatsDisjoint(s: string)
    ensures IsSignedText(s) ==> !IsFractionalText(s)
    ensures IsFractionalText(s) ==> !IsNumeral(s)
  {
  }

  /** "5-1" is a fraction, not an American price; a leading "-" makes an American price. */
  lemma DashFractionIsFractional()
    ensures WhichFormatIs(Text("5-1")) == Ok(Fractional)
    ensures WhichFormatIs(Text("-5")) == Ok(American)
    ensures WhichFormatIs(Number(-400.0)) == Ok(American)
    ensures WhichFormatIs(Number(6.0)) == Ok(Decimal)
  {
    assert LeadingDigits("5-1") == 1 by {
      assert "5-1"[1..] == "-1";
    }
    assert "5-1"[2..] == "1";
  }

  /** Whatever separator a fraction is written with, the converted fraction is the same and prints with "/". */
  lemma SeparatorNormalised(a: string, b: string, sep: char)
    requires |a| > 0 && |b| > 0 && AllDigits(a) && AllDigits(b) && IsSeparator(sep)
    ensures IsFractionalText(a + [sep] + b) && IsFractionalText(a + "/" + b)
    ensures FormatFractional(a + [sep] + b) == FormatFractional(a + "/" + b)
  {
    forall c | IsSeparator(c) ensures IsFractionalText(a + [c] + b) && FractionParts(a + [c] + b) == (DigitsValue(a), DigitsValue(b)) {
      var s := a + [c] + b;
      LeadingDigitsOfConcat(a, [c] + b);
      assert s == a + ([c] + b);
      assert s[..|a|] == a && s[|a| + 1..] == b;
    }
    assert "/" == ['/'];
  }

  // ---------------------------------------------------------------------
  // Fractional prices

  /** A fractional price converts to 1 + n/d, and its fractional field keeps n and d unreduced. */
  lemma FractionalConversion(s: string)
    requires IsFractionalText(s)
    ensures ConvertSpec(Text(s)).Ok? <==> FractionParts(s).1 > 0
    ensures ConvertSpec(Text(s)).Ok? ==>
      var c := ConvertSpec(Text(s)).value;
      c.originalFormat == Fractional &&
      c.fractional == Fraction(FractionParts(s).0, FractionParts(s).1) &&
      c.decimal == 1.0 + FractionParts(s).0 as real / FractionParts(s).1 as real &&
      c.decimal >= 1.0
  {
  }

  // ---------------------------------------------------------------------
  // American prices

  /** "+N" is accepted exactly when N >= 100, and is then (N + 100) / 100. */
  lemma PositiveMoneyline(o: Odds, n: nat)
    requires AmericanParts(o) == Some((true, n))
    ensures AmericanToDecimal(o).Ok? <==> n >= 100
    ensures n >= 100 ==> AmericanToDecimal(o).value == (n as real + 100.0) / 100.0
  {
  }

  lemma NegativeRatio(n: nat)
    requires n > 0
    ensures (n as real + 100.0) / n as real < 2.0 <==> n > 100
    ensures (n as real + 100.0) / n as real > 1.0
  {
    var d := (n as real + 100.0) / n as real;
    assert d * n as real == n as real + 100.0;
    if d < 2.0 {
      assert d * n as real < 2.0 * n as real;
    } else {
      assert d * n as real >= 2.0 * n as real;
    }
  }

  /** "-N" is accepted exactly when N > 100, and is then (N + 100) / N, strictly between 1 and 2. */
  lemma NegativeMoneyline(o: Odds, n: nat)
    requires AmericanParts(o) == Some((false, n))
    ensures AmericanToDecimal(o).Ok? <==> n > 100
    ensures n > 100 ==> AmericanToDecimal(o).value == (n as real + 100.0) / n as real
  {
    if n > 0 {
      NegativeRatio(n);
    }
  }

  /** A detected American price that carries no number after its sign is rejected. */
  lemma AmericanNeedsNumber(o: Odds)
    requires WhichFormatIs(o) == Ok(American) && AmericanParts(o).None?
    ensures ConvertSpec(o) == Err(InvalidPrice)
  {
  }

  /**
   * An American price given as text is read by `parseInt`: its magnitude
   * is the number after the sign rounded down, so "+150.9" reads as +150
   * and "-400.5" as -400.
   */
  lemma AmericanTextTruncates(s: string)
    requires IsSignedText(s) && IsNumeral(s[1..]) && LeadingDigits(s[1..]) > 0
    ensures AmericanParts(Text(s)) == Some((s[0] == '+', NumeralValue(s[1..]).Floor))
  {
    IntegerPartIsFloor(s[1..]);
  }

  lemma PositiveLineRoundTrip(n: nat)
    requires n >= 100
    ensures DecimalToAmerican((n as real + 100.0) / 100.0) == Line(true, n)
  {
    var d := (n as real + 100.0) / 100.0;
    assert 100.0 * (d - 1.0) == n as real;
  }

  lemma NegativeLineRoundTrip(n: nat)
    requires n > 100
    ensures (n as real + 100.0) / n as real >= 1.0
    ensures DecimalToAmerican((n as real + 100.0) / n as real) == Line(false, n)
  {
    NegativeRatio(n);
    var d := (n as real + 100.0) / n as real;
    assert d * n as real == n as real + 100.0;
    assert (1.0 - d) * n as real == -100.0;
    var v := 100.0 / (1.0 - d);
    assert v * (1.0 - d) == 100.0;
    assert v == -(n as real) by {
      assert v * (1.0 - d) * n as real == 100.0 * n as real;
      assert v * -100.0 == 100.0 * n as real;
    }
  }

  /**
   * For an American input the American field is the input's own sign and
   * whole magnitude, and it is exactly what converting the decimal price
   * back would print.
   */
  lemma AmericanFieldRoundTrip(o: Odds)
    requires WhichFormatIs(o) == Ok(American) && ConvertSpec(o).Ok?
    ensures AmericanParts(o).Some?
    ensures ConvertSpec(o).value.american == Line(AmericanParts(o).value.0, AmericanParts(o).value.1)
    ensures DecimalToAmerican(ConvertSpec(o).value.decimal) == ConvertSpec(o).value.american
  {
    var (positive, n) := AmericanParts(o).value;
    if positive {
      PositiveMoneyline(o, n);
      PositiveLineRoundTrip(n);
    } else {
      NegativeMoneyline(o, n);
      NegativeLineRoundTrip(n);
    }
  }

  // ---------------------------------------------------------------------
  // Decimal to American

  /** From a decimal price above 1, the sign records which side of evens (2.0) the price lies, and the magnitude is at least 100. */
  lemma MoneylineSide(x: real)
    requires x > 1.0
    ensures DecimalToAmerican(x).Line?
    ensures DecimalToAmerican(x).positive <==> x >= 2.0
    ensures DecimalToAmerican(x).magnitude >= 100
  {
    if x < 2.0 {
      ShortOddsBound(x);
    }
  }

  // ---------------------------------------------------------------------
  // Decimal to fractional

  /** decimalToFractional rejects exactly the prices at or below 1; otherwise n/d is in lowest terms and equals round((x - 1) * 10^8) / 10^8. */
  lemma FractionOfReduced(x: real)
    ensures FractionOf(x).Err? <==> x <= 1.0
    ensures FractionOf(x).Ok? ==>
      var f := FractionOf(x).value;
      f.denominator > 0 &&
      Coprime(f.numerator, f.denominator) &&
      f.numerator * Scale == ScaledNumerator(x) * f.denominator
  {
    if x > 1.0 {
      var n := ScaledNumerator(x);
      var g := Gcd(n, Scale);
      GcdIsGcd(n, Scale);
      QuotientsByGcdCoprime(g, n, Scale);
      var f := FractionOf(x).value;
      assert n == g * f.numerator && Scale == g * f.denominator;
      forall c | Divides(c, f.numerator) && Divides(c, f.denominator) ensures c == 1 {
        assert Divides(c, 1);
        DividesBound(c, 1);
      }
      assert f.numerator * Scale == f.numerator * (g * f.denominator) == (g * f.numerator) * f.denominator;
    }
  }

  /** Equal cross products give equal ratios. */
  lemma RatioFromCrossProduct(a: nat, b: nat, n: nat, m: nat)
    requires b > 0 && m > 0 && a * m == n * b
    ensures a as real / b as real == n as real / m as real
  {
    var q := a as real / b as real;
    var p := n as real / m as real;
    assert q * b as real == a as real;
    assert p * m as real == n as real;
    assert (a * m) as real == a as real * m as real;
    assert (n * b) as real == n as real * b as real;
    assert q * b as real * m as real == p * m as real * b as real;
  }

  /** The fraction stands for the decimal price to within half of 10^-8. */
  lemma FractionOfApproximates(x: real)
    requires x > 1.0
    ensures FractionOf(x).Ok? && FractionOf(x).value.denominator > 0
    ensures var f := FractionOf(x).value;
      var back := 1.0 + f.numerator as real / f.denominator as real;
      -0.5 / Scale as real < back - x <= 0.5 / Scale as real
  {
    FractionOfReduced(x);
    var f := FractionOf(x).value;
    var n := ScaledNumerator(x);
    RatioFromCrossProduct(f.numerator, f.denominator, n, Scale);
    var t := (x - 1.0) * Scale as real;
    assert t - 0.5 < n as real <= t + 0.5;
  }

  /** A price that is an exact multiple of 10^-8 above 1 survives the trip to a fraction and back. */
  lemma FractionOfExact(x: real, k: nat)
    requires x > 1.0 && (x - 1.0) * Scale as real == k as real
    ensures FractionOf(x).Ok? && FractionOf(x).value.denominator > 0
    ensures var f := FractionOf(x).value;
      1.0 + f.numerator as real / f.denominator as real == x
  {
    FractionOfReduced(x);
    var f := FractionOf(x).value;
    assert ScaledNumerator(x) == k;
    RatioFromCrossProduct(f.numerator, f.denominator, k, Scale);
  }

  // ---------------------------------------------------------------------
  // The whole record

  /**
   * What every successful conversion guarantees: the original format is
   * the detected one; the decimal price is at least 1 (above 1 unless the
   * input was a fraction with numerator 0); the American field is "INaN"
   * exactly at 1 and otherwise signs which side of evens the price lies;
   * a fractional field derived from the decimal is in lowest terms.
   */
  lemma ConvertedFields(o: Odds)
    requires ConvertSpec(o).Ok?
    ensures var c := ConvertSpec(o).value;
      c.originalFormat == WhichFormatIs(o).value &&
      c.decimal >= 1.0 &&
      (c.originalFormat != Fractional ==> c.decimal > 1.0) &&
      c.fractional.denominator > 0 &&
      (c.american == NotANumber <==> c.decimal == 1.0) &&
      (c.american.Line? ==> (c.american.positive <==> c.decimal >= 2.0) && c.american.magnitude >= 100) &&
      (c.originalFormat != Fractional ==> Coprime(c.fractional.numerator, c.fractional.denominator))
  {
    var c := ConvertSpec(o).value;
    if c.originalFormat == American {
      AmericanFieldRoundTrip(o);
    }
    if c.decimal > 1.0 {
      MoneylineSide(c.decimal);
    }
    if c.originalFormat != Fractional {
      FractionOfReduced(c.decimal);
    }
  }

  // ---------------------------------------------------------------------
  // Printing and reading back

  /** A printed fraction is detected as fractional and reads back as the same fraction. */
  lemma ShowFractionRoundTrip(f: Fraction)
    requires f.denominator > 0
    ensures IsFractionalText(ShowFraction(f))
    ensures WhichFormatIs(Text(ShowFraction(f))) == Ok(Fractional)
    ensures FormatFractional(ShowFraction(f)) == Ok(f)
  {
    var a, b := ShowNat(f.numerator), ShowNat(f.denominator);
    SeparatorNormalised(a, b, '/');
    assert ShowFraction(f) == a + ['/'] + b;
    var s := a + ['/'] + b;
    LeadingDigitsOfConcat(a, ['/'] + b);
    assert s == a + (['/'] + b);
    assert s[..|a|] == a && s[|a| + 1..] == b;
  }

  /** A printed moneyline is detected as American and reads back as the same sign and magnitude. */
  lemma ShowMoneylineRoundTrip(positive: bool, magnitude: nat)
    ensures WhichFormatIs(Text(ShowMoneyline(Line(positive, magnitude)))) == Ok(American)
    ensures AmericanParts(Text(ShowMoneyline(Line(positive, magnitude)))) == Some((positive, magnitude))
  {
    var s := ShowMoneyline(Line(positive, magnitude));
    ShowNatIsNumeral(magnitude);
    assert s[1..] == ShowNat(magnitude);
    assert !IsFractionalText(s);
  }
}
