/** The converter's behaviour on the prices its test suite uses. */
module ConverterExamples {
  import opened Wrappers
  import opened Numerals
  import opened Divisibility
  import opened OddsConverter

  lemma TenToOne()
    ensures ConvertSpec(Text("10/1")) == Ok(Converted(Fractional, Fraction(10, 1), 11.0, Line(true, 1000)))
  {
    var s := "10/1";
    assert s[1..][1..] == "/1";
    assert LeadingDigits(s) == 2;
    assert s[..2] == "10" && s[3..] == "1";
    assert DigitsValue("10") == 10 by { assert "10"[..1] == "1"; }
  }

  lemma Six()
    ensures ConvertSpec(Number(6.0)) == Ok(Converted(Decimal, Fraction(5, 1), 6.0, Line(true, 500)))
  {
    assert ScaledNumerator(6.0) == 500000000;
    assert Gcd(500000000, Scale) == 100000000;
  }

  lemma OneAndAHalf()
    ensures ConvertSpec(Number(1.5)) == Ok(Converted(Decimal, Fraction(1, 2), 1.5, Line(false, 200)))
  {
    assert ScaledNumerator(1.5) == 50000000;
    assert Gcd(50000000, Scale) == 50000000 by {
      assert Gcd(Scale, 50000000) == Gcd(50000000, 0);
    }
  }

  lemma ThreeAndAHalfText()
    ensures ConvertSpec(Text("3.5")) == Ok(Converted(Decimal, Fraction(5, 2), 3.5, Line(true, 250)))
  {
    var s := "3.5";
    assert s[1..] == ".5";
    assert LeadingDigits(s) == 1;
    assert s[2..] == "5" && s[..1] == "3";
    assert NumeralValue(s) == 3.5;
    assert ScaledNumerator(3.5) == 250000000;
    assert Gcd(250000000, Scale) == 50000000 by {
      assert Gcd(Scale, 50000000) == Gcd(50000000, 0);
    }
  }

  lemma OneAndAQuarterText()
    ensures ConvertSpec(Text("1.25")) == Ok(Converted(Decimal, Fraction(1, 4), 1.25, Line(false, 400)))
  {
    var s := "1.25";
    assert s[1..] == ".25";
    assert LeadingDigits(s) == 1;
    assert s[2..] == "25" && s[..1] == "1";
    assert DigitsValue("25") == 25 by { assert "25"[..1] == "2"; }
    assert NumeralValue(s) == 1.25;
    assert ScaledNumerator(1.25) == 25000000;
    assert Gcd(25000000, Scale) == 25000000 by {
      assert Gcd(Scale, 25000000) == Gcd(25000000, 0);
    }
  }

  lemma PlusEightHundred()
    ensures ConvertSpec(Text("+800")) == Ok(Converted(American, Fraction(8, 1), 9.0, Line(true, 800)))
  {
    var s := "+800";
    assert s[1..] == "800";
    assert LeadingDigits("800") == 3 by {
      assert "800"[1..] == "00" && "00"[1..] == "0" && "0"[1..] == [];
    }
    assert "800"[..3] == "800";
    assert DigitsValue("800") == 800 by {
      assert "800"[..2] == "80" && "80"[..1] == "8";
    }
    assert ScaledNumerator(9.0) == 800000000;
    assert Gcd(800000000, Scale) == Scale;
  }

  lemma QuarterFraction()
    ensures FractionOf(1.25) == Ok(Fraction(1, 4))
  {
    assert ScaledNumerator(1.25) == 25000000;
    assert Gcd(25000000, Scale) == 25000000 by {
      assert Gcd(Scale, 25000000) == Gcd(25000000, 0);
    }
  }

  lemma MinusFourHundred()
    ensures ConvertSpec(Text("-400")) == Ok(Converted(American, Fraction(1, 4), 1.25, Line(false, 400)))
  {
    var s := "-400";
    assert s[1..] == "400";
    assert LeadingDigits("400") == 3 by {
      assert "400"[1..] == "00" && "00"[1..] == "0" && "0"[1..] == [];
    }
    assert "400"[..3] == "400";
    assert DigitsValue("400") == 400 by {
      assert "400"[..2] == "40" && "40"[..1] == "4";
    }
    assert AmericanParts(Text(s)) == Some((false, 400));
    assert AmericanToDecimal(Text(s)) == Ok(1.25);
    QuarterFraction();
  }

  lemma MinusFourHundredNumber()
    ensures ConvertSpec(Number(-400.0)) == Ok(Converted(American, Fraction(1, 4), 1.25, Line(false, 400)))
  {
    assert AmericanParts(Number(-400.0)) == Some((false, 400));
    assert AmericanToDecimal(Number(-400.0)) == Ok(1.25);
    QuarterFraction();
  }

  /** Malformed fractions of the test suite are refused. */
  lemma BogusFractions()
    ensures ConvertSpec(Text("a/f")) == Err(UnrecognisedFormat)
    ensures ConvertSpec(Text("10/")) == Err(UnrecognisedFormat)
    ensures ConvertSpec(Text("/")) == Err(UnrecognisedFormat)
  {
    assert "10/"[1..][1..] == "/";
    assert LeadingDigits("10/") == 2;
  }

  /** A fraction over zero has the fractional shape but no price. */
  lemma ZeroOverZero()
    ensures ConvertSpec(Text("0/0")) == Err(InvalidPrice)
  {
    assert "0/0"[1..] == "/0" && "0/0"[2..] == "0" && "0/0"[..1] == "0";
    assert LeadingDigits("0/0") == 1;
  }

  /** Text with two decimal points is no price format. */
  lemma BogusDecimals()
    ensures ConvertSpec(Text("..3")) == Err(UnrecognisedFormat)
    ensures ConvertSpec(Text("3..")) == Err(UnrecognisedFormat)
  {
    assert "..3"[1..] == ".3";
    assert "3.."[1..] == "..";
    assert LeadingDigits("3..") == 1;
  }

  /** Decimal numbers of at most 1 are refused. */
  lemma BogusNumbers()
    ensures ConvertSpec(Number(1.0)) == Err(InvalidPrice)
    ensures ConvertSpec(Number(0.1)) == Err(InvalidPrice)
  {
  }

  /** Signed text that is not a number passes as American but converts to nothing. */
  lemma BogusAmericans()
    ensures ConvertSpec(Text("+10B")) == Err(InvalidPrice)
    ensures ConvertSpec(Text("-XYZ")) == Err(InvalidPrice)
  {
    assert "+10B"[1..] == "10B" && "10B"[1..] == "0B" && "0B"[1..] == "B";
    assert LeadingDigits("10B") == 2;
    assert "-XYZ"[1..] == "XYZ";
  }
}
