/** calculator on bets from its test suite, and on a rewritten runner it refuses the second time. */
module CalculatorExamples {
  import opened Wrappers
  import opened Numerals
  import opened OddsConverter
  import opened BetCruncher
  import opened BetCruncherProps
  import ConverterExamples

  /** A one-digit fractional price "a/b" reads as 1 + a/b. */
  lemma SmallFraction(a: char, b: char)
    requires IsDigit(a) && IsDigit(b) && b != '0'
    ensures ToDecimal(Text([a, '/', b])) == Ok(1.0 + DigitValue(a) as real / DigitValue(b) as real)
  {
    var s := [a, '/', b];
    assert s[1..] == ['/', b];
    assert LeadingDigits(s) == 1;
    assert s[..1] == [a] && s[2..] == [b];
    assert DigitsValue([a]) == DigitValue(a) by { assert [a][..0] == []; }
    assert DigitsValue([b]) == DigitValue(b) by { assert [b][..0] == []; }
  }

  lemma TenToOne()
    ensures ToDecimal(Text("10/1")) == Ok(11.0)
  {
    ConverterExamples.TenToOne();
    ToDecimalIsConvertDecimal(Text("10/1"));
  }

  lemma QuarterTerms()
    ensures ToDecimal(Text("1/4")) == Ok(1.25)
  {
    SmallFraction('1', '4');
  }

  lemma FiveToOne()
    ensures ToDecimal(Text("5/1")) == Ok(6.0)
  {
    SmallFraction('5', '1');
  }

  lemma NineToTwo()
    ensures ToDecimal(Text("9/2")) == Ok(5.5)
  {
    SmallFraction('9', '2');
  }

  lemma FifthTerms()
    ensures ToDecimal(Text("1/5")) == Ok(1.2)
  {
    SmallFraction('1', '5');
  }

  lemma TwoToOne()
    ensures ToDecimal(Text("2/1")) == Ok(3.0)
  {
    SmallFraction('2', '1');
  }

  lemma NothingToOne()
    ensures ToDecimal(Text("0/1")) == Ok(1.0)
  {
    SmallFraction('0', '1');
  }

  lemma FourToOne()
    ensures ToDecimal(Text("4/1")) == Ok(5.0)
  {
    SmallFraction('4', '1');
  }

  lemma ThreeToOne()
    ensures ToDecimal(Text("3/1")) == Ok(4.0)
  {
    SmallFraction('3', '1');
  }

  /** Runners whose prices all convert normalise to the legs they convert to. */
  lemma Converts(rs: seq<Runner>, legs: seq<Leg>)
    requires |rs| == |legs|
    requires forall k :: 0 <= k < |rs| ==> RunnerLeg(rs[k], PricesFor(rs[k])) == Ok(legs[k])
    ensures NormaliseRunners(rs) == Ok(legs)
  {
    NormaliseRunnersMeaning(rs);
    assert NormaliseRunners(rs).value == legs;
  }

  /** A lower-case name is its own lower-case form. */
  lemma LowerCaseName(s: string)
    requires forall i :: 0 <= i < |s| ==> 'a' <= s[i] <= 'z'
    ensures Lower(s) == s
  {
  }

  /** A stake in whole cents is reported as it is. */
  lemma WholeCents(x: real, cents: int)
    requires x == cents as real / 100.0
    ensures RoundToCents(x) == x
  {
    assert x * 100.0 == cents as real;
    RoundToCentsError(x);
  }

  lemma TenToOneRunner(x: Runner)
    requires x == Runner(Text("10/1"), Text("1/4"), 1)
    ensures NormaliseRunners([x]) == Ok([Leg(11.0, 1.25, 1)])
  {
    TenToOne();
    QuarterTerms();
    assert PricesFor(x) == Prices(Ok(11.0), Ok(1.25));
    Converts([x], [Leg(11.0, 1.25, 1)]);
  }

  /** Five on a single whose leg wins at decimal 11 lays 5 and returns 55. */
  lemma SingleSettlement(legs: seq<Leg>)
    requires legs == [Leg(11.0, 1.25, 1)]
    ensures Rounded(SettleLegs(AsWritten, legs, BetTypes["single"], 5.0, false)) == Settlement(5.0, 55.0, 50.0)
  {
    StraightBet(AsWritten, "single", legs, 5.0, false);
    assert Roll(legs, 0, 5.0) == 55.0;
    WholeCents(5.0, 500);
    WholeCents(55.0, 5500);
    WholeCents(50.0, 5000);
  }

  /** "Single": 5 on a 10/1 winner returns 55, a profit of 50. */
  lemma Single(x: Runner)
    requires x == Runner(Text("10/1"), Text("1/4"), 1)
    ensures Calculation(AsWritten, Some(Betslip(Amount(5.0), "single", false)), RunnerList([x])) == Ok(Settlement(5.0, 55.0, 50.0))
  {
    var legs := [Leg(11.0, 1.25, 1)];
    TenToOneRunner(x);
    LowerCaseName("single");
    CalculationSettles(AsWritten, "single", 5.0, false, [x], legs);
    SingleSettlement(legs);
  }

  lemma NineToTwoRunner(x: Runner)
    requires x == Runner(Text("9/2"), Text("1/5"), 2)
    ensures NormaliseRunners([x]) == Ok([Leg(5.5, 1.2, 2)])
  {
    NineToTwo();
    FifthTerms();
    assert PricesFor(x) == Prices(Ok(5.5), Ok(1.2));
    Converts([x], [Leg(5.5, 1.2, 2)]);
  }

  /** Fifteen each way on a single placed second at decimal 5.5, a fifth the odds: lays 30, returns 28.5. */
  lemma EachWaySingleSettlement(legs: seq<Leg>)
    requires legs == [Leg(5.5, 1.2, 2)]
    ensures Rounded(SettleLegs(AsWritten, legs, BetTypes["single"], 15.0, true)) == Settlement(30.0, 28.5, -1.5)
  {
    StraightBet(AsWritten, "single", legs, 15.0, true);
    assert Roll(legs, 0, 15.0) == 0.0;
    assert RollPlace(legs, 0, 15.0) == 28.5;
    WholeCents(30.0, 3000);
    WholeCents(28.5, 2850);
    WholeCents(-1.5, -150);
  }

  /** "Each Way Single": 15 each way on a 9/2 runner placed second at a fifth the odds lays 30 and returns 28.5. */
  lemma EachWaySingle(x: Runner)
    requires x == Runner(Text("9/2"), Text("1/5"), 2)
    ensures Calculation(AsWritten, Some(Betslip(Amount(15.0), "single", true)), RunnerList([x])) == Ok(Settlement(30.0, 28.5, -1.5))
  {
    var legs := [Leg(5.5, 1.2, 2)];
    NineToTwoRunner(x);
    LowerCaseName("single");
    CalculationSettles(AsWritten, "single", 15.0, true, [x], legs);
    var settled := SettleLegs(AsWritten, legs, BetTypes["single"], 15.0, true);
    assert Calculation(AsWritten, Some(Betslip(Amount(15.0), "single", true)), RunnerList([x])) == Ok(Rounded(settled));
    EachWaySingleSettlement(legs);
  }

  /** Three winners at 5/1, as the legs of a trixie. */
  predicate ThreeWinnersAtFive(legs: seq<Leg>) {
    |legs| == 3 && forall k :: 0 <= k < 3 ==> legs[k] == Leg(6.0, 1.25, 1)
  }

  /**
   * The last leg of the trixie: it closes a double or the treble at six
   * times what rides on it; it stands alone as a single only under the
   * written guard.
   */
  lemma TrixieLastLeg(g: Guard, legs: seq<Leg>, w: real, num: nat, x: real)
    requires ThreeWinnersAtFive(legs) && 1 <= num <= 3
    ensures Sweep(g, legs, BetType(3, true, false), w, false, 2, num, x, w).payout ==
      if num == 1 && g == Corrected then 0.0 else 6.0 * x
  {
    var bt := BetType(3, true, false);
    assert legs[2] == Leg(6.0, 1.25, 1);
    assert Sweep(g, legs, bt, w, false, 3, num, x, w).payout == 0.0;
    assert Sweep(g, legs, bt, w, false, 3, num + 1, 6.0 * x, w).payout == 0.0;
    assert DoSingle(x, 6.0, 1) == 6.0 * x;
  }

  /**
   * The middle leg: from a single it opens the double with the last (and,
   * as written, pays both singles too); from the first leg's double, that
   * double and the treble.
   */
  lemma TrixieMiddleLeg(g: Guard, legs: seq<Leg>, w: real, num: nat, x: real)
    requires ThreeWinnersAtFive(legs) && 1 <= num <= 2
    ensures Sweep(g, legs, BetType(3, true, false), w, false, 1, num, x, w).payout ==
      if num == 1 && g == Corrected then 36.0 * x else 48.0 * x
  {
    var bt := BetType(3, true, false);
    assert legs[1] == Leg(6.0, 1.25, 1);
    assert DoSingle(x, 6.0, 1) == 6.0 * x;
    TrixieLastLeg(g, legs, w, num, x);
    TrixieLastLeg(g, legs, w, num + 1, 6.0 * x);
    assert Visit(g, legs, bt, w, false, 1, num, x, w).payout == (if num == 1 && g == Corrected then 0.0 else 6.0 * x) + 36.0 * x;
  }

  /**
   * Three winners at 5/1 under a trixie: each double pays 36 times the
   * stake, the treble 216 times, 324 in all; as written the three singles
   * add six times the stake each, 342 in all.
   */
  lemma TrixieWinners(g: Guard, legs: seq<Leg>, w: real)
    requires ThreeWinnersAtFive(legs)
    ensures SettleLegs(g, legs, BetType(3, true, false), w, false).payout ==
      if g == AsWritten then 342.0 * w else 324.0 * w
  {
    var bt := BetType(3, true, false);
    assert legs[0] == Leg(6.0, 1.25, 1);
    assert DoSingle(w, 6.0, 1) == 6.0 * w;
    TrixieMiddleLeg(g, legs, w, 1, w);
    TrixieMiddleLeg(g, legs, w, 2, 6.0 * w);
    assert Visit(g, legs, bt, w, false, 0, 1, w, w).payout == (if g == AsWritten then 6.0 * w else 0.0) + 288.0 * w;
  }

  /** As calculator computes it: ten on a trixie whose three legs win at 5/1 lays 70 (seven bets) and returns 3420. */
  lemma TrixieSettlement(legs: seq<Leg>)
    requires ThreeWinnersAtFive(legs)
    ensures Rounded(SettleLegs(AsWritten, legs, BetTypes["trixie"], 10.0, false)) == Settlement(70.0, 3420.0, 3350.0)
  {
    TrixieSinglesAdmitted();
    TotalStake("trixie", legs, 10.0, false);
    CatalogueBetCounts();
    LaidIsProduct(10.0, false, 7);
    TrixieWinners(AsWritten, legs, 10.0);
    WholeCents(70.0, 7000);
    WholeCents(3420.0, 342000);
    WholeCents(3350.0, 335000);
  }

  /** Under the intended rule: the same trixie lays 40 (three doubles and a treble) and returns 3240. */
  lemma IntendedTrixieSettlement(legs: seq<Leg>)
    requires ThreeWinnersAtFive(legs)
    ensures Rounded(SettleLegs(Corrected, legs, BetTypes["trixie"], 10.0, false)) == Settlement(40.0, 3240.0, 3200.0)
  {
    TrixieSinglesAdmitted();
    IntendedTotalStake("trixie", legs, 10.0, false);
    IntendedBetCounts();
    LaidIsProduct(10.0, false, 4);
    TrixieWinners(Corrected, legs, 10.0);
    WholeCents(40.0, 4000);
    WholeCents(3240.0, 324000);
    WholeCents(3200.0, 320000);
  }

  /**
   * "Trixie", as calculator computes it: 10 on three 5/1 winners stakes the
   * three singles as well as the doubles and the treble, laying 70 and
   * returning 3420 where the suite expects 40 and 3240.
   */
  lemma Trixie(x: Runner)
    requires x == Runner(Text("5/1"), Text("1/4"), 1)
    ensures Calculation(AsWritten, Some(Betslip(Amount(10.0), "trixie", false)), RunnerList([x, x, x])) == Ok(Settlement(70.0, 3420.0, 3350.0))
  {
    var leg := Leg(6.0, 1.25, 1);
    ThreeRunnersAtFive(x, leg);
    LowerCaseName("trixie");
    CalculationSettles(AsWritten, "trixie", 10.0, false, [x, x, x], [leg, leg, leg]);
    TrixieSettlement([leg, leg, leg]);
  }

  /** "Trixie" under the intended rule: three doubles and a treble, laying 40 and returning 3240, as the suite expects. */
  lemma IntendedTrixie(x: Runner)
    requires x == Runner(Text("5/1"), Text("1/4"), 1)
    ensures Calculation(Corrected, Some(Betslip(Amount(10.0), "trixie", false)), RunnerList([x, x, x])) == Ok(Settlement(40.0, 3240.0, 3200.0))
  {
    var leg := Leg(6.0, 1.25, 1);
    ThreeRunnersAtFive(x, leg);
    LowerCaseName("trixie");
    CalculationSettles(Corrected, "trixie", 10.0, false, [x, x, x], [leg, leg, leg]);
    IntendedTrixieSettlement([leg, leg, leg]);
  }

  lemma ThreeRunnersAtFive(x: Runner, leg: Leg)
    requires x == Runner(Text("5/1"), Text("1/4"), 1) && leg == Leg(6.0, 1.25, 1)
    ensures NormaliseRunners([x, x, x]) == Ok([leg, leg, leg])
  {
    FiveToOne();
    QuarterTerms();
    assert PricesFor(x) == Prices(Ok(6.0), Ok(1.25));
    Converts([x, x, x], [leg, leg, leg]);
  }

  /** Three void legs at 6, 5 and 4 with quarter terms. */
  predicate ThreeVoidLegs(legs: seq<Leg>) {
    legs == [Leg(6.0, 1.25, -1), Leg(5.0, 1.25, -1), Leg(4.0, 1.25, -1)]
  }

  /** As calculator computes it: ten on a trixie of three void legs lays 70 and returns 70. */
  lemma TrixieVoidSettlement(legs: seq<Leg>)
    requires ThreeVoidLegs(legs)
    ensures Rounded(SettleLegs(AsWritten, legs, BetTypes["trixie"], 10.0, false)) == Settlement(70.0, 70.0, 0.0)
  {
    TotalStake("trixie", legs, 10.0, false);
    CatalogueBetCounts();
    LaidIsProduct(10.0, false, 7);
    AllVoidReturnsStake(AsWritten, legs, BetTypes["trixie"], 10.0, false, 0, 1);
    WholeCents(70.0, 7000);
    WholeCents(0.0, 0);
  }

  /** Under the intended rule: ten on a trixie of three void legs lays 40 and returns 40. */
  lemma IntendedTrixieVoidSettlement(legs: seq<Leg>)
    requires ThreeVoidLegs(legs)
    ensures Rounded(SettleLegs(Corrected, legs, BetTypes["trixie"], 10.0, false)) == Settlement(40.0, 40.0, 0.0)
  {
    IntendedTotalStake("trixie", legs, 10.0, false);
    IntendedBetCounts();
    LaidIsProduct(10.0, false, 4);
    AllVoidReturnsStake(Corrected, legs, BetTypes["trixie"], 10.0, false, 0, 1);
    WholeCents(40.0, 4000);
    WholeCents(0.0, 0);
  }

  lemma ThreeVoidRunners(a: Runner, b: Runner, c: Runner, legs: seq<Leg>)
    requires a == Runner(Text("5/1"), Text("1/4"), -1)
    requires b == Runner(Text("4/1"), Text("1/4"), -1)
    requires c == Runner(Text("3/1"), Text("1/4"), -1)
    requires ThreeVoidLegs(legs)
    ensures NormaliseRunners([a, b, c]) == Ok(legs)
  {
    FiveToOne();
    FourToOne();
    ThreeToOne();
    QuarterTerms();
    assert PricesFor(a) == Prices(Ok(6.0), Ok(1.25));
    assert PricesFor(b) == Prices(Ok(5.0), Ok(1.25));
    assert PricesFor(c) == Prices(Ok(4.0), Ok(1.25));
    Converts([a, b, c], legs);
  }

  /** "Trixie Void", as calculator computes it: 10 on a trixie whose three legs are all void lays 70 and returns 70. */
  lemma TrixieVoid(a: Runner, b: Runner, c: Runner)
    requires a == Runner(Text("5/1"), Text("1/4"), -1)
    requires b == Runner(Text("4/1"), Text("1/4"), -1)
    requires c == Runner(Text("3/1"), Text("1/4"), -1)
    ensures Calculation(AsWritten, Some(Betslip(Amount(10.0), "trixie", false)), RunnerList([a, b, c])) == Ok(Settlement(70.0, 70.0, 0.0))
  {
    var legs := [Leg(6.0, 1.25, -1), Leg(5.0, 1.25, -1), Leg(4.0, 1.25, -1)];
    ThreeVoidRunners(a, b, c, legs);
    LowerCaseName("trixie");
    CalculationSettles(AsWritten, "trixie", 10.0, false, [a, b, c], legs);
    TrixieVoidSettlement(legs);
  }

  /** "Trixie Void" under the intended rule: lays 40 and returns 40, as the suite expects. */
  lemma IntendedTrixieVoid(a: Runner, b: Runner, c: Runner)
    requires a == Runner(Text("5/1"), Text("1/4"), -1)
    requires b == Runner(Text("4/1"), Text("1/4"), -1)
    requires c == Runner(Text("3/1"), Text("1/4"), -1)
    ensures Calculation(Corrected, Some(Betslip(Amount(10.0), "trixie", false)), RunnerList([a, b, c])) == Ok(Settlement(40.0, 40.0, 0.0))
  {
    var legs := [Leg(6.0, 1.25, -1), Leg(5.0, 1.25, -1), Leg(4.0, 1.25, -1)];
    ThreeVoidRunners(a, b, c, legs);
    LowerCaseName("trixie");
    CalculationSettles(Corrected, "trixie", 10.0, false, [a, b, c], legs);
    IntendedTrixieVoidSettlement(legs);
  }

  lemma EvensTermsLeg(x: Runner)
    requires x == Runner(Text("2/1"), Text("0/1"), 1)
    ensures NormaliseRunners([x]) == Ok([Leg(3.0, 1.0, 1)])
  {
    TwoToOne();
    NothingToOne();
    assert PricesFor(x) == Prices(Ok(3.0), Ok(1.0));
    Converts([x], [Leg(3.0, 1.0, 1)]);
  }

  /** Five on a single at 2/1 (decimal 3) that wins lays 5 and returns 15. */
  lemma EvensTermsSingle(x: Runner)
    requires x == Runner(Text("2/1"), Text("0/1"), 1)
    ensures Calculation(AsWritten, Some(Betslip(Amount(5.0), "single", false)), RunnerList([x])) == Ok(Settlement(5.0, 15.0, 10.0))
  {
    var legs := [Leg(3.0, 1.0, 1)];
    EvensTermsLeg(x);
    LowerCaseName("single");
    CalculationSettles(AsWritten, "single", 5.0, false, [x], legs);
    StraightBet(AsWritten, "single", legs, 5.0, false);
    assert Roll(legs, 0, 5.0) == 15.0;
    WholeCents(5.0, 500);
    WholeCents(15.0, 1500);
    WholeCents(10.0, 1000);
  }

  /** The decimal prices calculator writes back for that runner: a place term of exactly 1. */
  lemma EvensTermsWrittenBack(x: Runner)
    requires x == Runner(Text("2/1"), Text("0/1"), 1)
    ensures Normalised([x]) == [Runner(Number(3.0), Number(1.0), 1)]
  {
    EvensTermsLeg(x);
    NormalisedRunners([x]);
  }

  /** A decimal place term of exactly 1 is refused as an invalid price. */
  lemma EvensTermsRefused(y: Runner)
    requires y == Runner(Number(3.0), Number(1.0), 1)
    ensures Calculation(AsWritten, Some(Betslip(Amount(5.0), "single", false)), RunnerList([y])) == Err(BadPrice(InvalidPrice))
  {
    assert ToDecimal(Number(1.0)) == Err(InvalidPrice);
    assert PricesFor(y) == Prices(Ok(3.0), Err(InvalidPrice));
    NormaliseRunnersMeaning([y]);
    assert NormaliseRunners([y]) == Err(InvalidPrice);
    LowerCaseName("single");
  }

  /**
   * calculator writes the decimal prices back into the caller's runners.
   * A place term of "0/1" converts to exactly 1, and 1 written back is
   * then refused as a decimal price: the same runners settle once and are
   * refused the second time.
   */
  lemma RewrittenEvensRefused(x: Runner)
    requires x == Runner(Text("2/1"), Text("0/1"), 1)
    ensures Calculation(AsWritten, Some(Betslip(Amount(5.0), "single", false)), RunnerList([x])).Ok?
    ensures Calculation(AsWritten, Some(Betslip(Amount(5.0), "single", false)), RunnerList(Normalised([x]))).Err?
  {
    EvensTermsSingle(x);
    EvensTermsWrittenBack(x);
    EvensTermsRefused(Runner(Number(3.0), Number(1.0), 1));
  }
}
