/**
 * What the settlement engine promises: which combinations it stakes (one
 * bet per combination of the type's size for the straight types, every
 * combination of two or more legs, and of one with singles, for the full
 * covers), what they pay, how the result rounds, and the order of
 * calculator's checks.
 */
module BetCruncherProps {
  import opened Wrappers
  import opened Numerals
  import opened OddsConverter
  import opened BetCruncher

  // ---------------------------------------------------------------------
  // The staking rule

  /** The guard as written lets a trixie's three singles through; the intended rule does not. */
  lemma TrixieSinglesAdmitted()
    ensures "trixie" in BetTypes && BetTypes["trixie"] == BetType(3, true, false)
    ensures ShouldDoAccumulator(BetTypes["trixie"], 1)
    ensures !Staked(BetTypes["trixie"], 1)
  {
  }

  /**
   * The written guard and the intended rule disagree exactly on full
   * covers without singles, where one of the size and the selection count
   * is 1 and the other is not.
   */
  lemma StakingRulesDiffer(bt: BetType, num: nat)
    ensures ShouldDoAccumulator(bt, num) != Staked(bt, num) <==>
      bt.accumulator && !bt.singles && ((num == 1) != (bt.selections == 1))
  {
  }

  /**
   * As written, the guard treats every full cover as its variant with
   * singles: a trixie settles exactly as the intended patent, a yankee as a
   * lucky15, a goliath as a lucky255, combination by combination.
   */
  lemma {:induction false} AsWrittenCoverIsWithSingles(legs: seq<Leg>, bt: BetType, stake: real, isEachWay: bool, start: nat, num: nat, win: real, ew: real)
    requires bt.accumulator && bt.selections != 1
    ensures Sweep(AsWritten, legs, bt, stake, isEachWay, start, num, win, ew) ==
      Sweep(Corrected, legs, bt.(singles := true), stake, isEachWay, start, num, win, ew)
    decreases |legs| - start
  {
    if start < |legs| {
      var a, e := WinAfter(legs[start], win), PlaceAfter(legs[start], isEachWay, ew);
      assert RoundGain(AsWritten, bt, stake, num, isEachWay, a, e) ==
        RoundGain(Corrected, bt.(singles := true), stake, num, isEachWay, a, e);
      if num < 8 {
        AsWrittenCoverIsWithSingles(legs, bt, stake, isEachWay, start + 1, num + 1, a, e);
      }
      AsWrittenCoverIsWithSingles(legs, bt, stake, isEachWay, start + 1, num, win, ew);
    }
  }

  /** Every bet type takes one to eight selections; full covers take at least three; singles come with full covers or the single itself. */
  lemma CatalogueShape(name: string)
    requires name in BetTypes
    ensures 1 <= BetTypes[name].selections <= 8
    ensures BetTypes[name].accumulator ==> BetTypes[name].selections >= 3
    ensures BetTypes[name].singles ==> BetTypes[name].accumulator || BetTypes[name] == BetType(1, false, true)
    ensures BetTypes[name].selections == 1 ==> BetTypes[name].singles
  {
  }

  // ---------------------------------------------------------------------
  // Settling one leg

  /** A leg's return is proportional to what is riding on it. */
  lemma LegsScale(stake: real, price: real, terms: real, finishpos: int)
    ensures DoSingle(stake, price, finishpos) == stake * DoSingle(1.0, price, finishpos)
    ensures DoEachWay(stake, price, terms, finishpos) == stake * DoEachWay(1.0, price, terms, finishpos)
  {
  }

  /**
   * The place part of an each-way bet: any placed runner, the winner
   * included, pays at least the stake back at prices and terms of at least
   * evens; the win part pays only the winner.
   */
  lemma PlacePartPaysPlacedRunners(stake: real, price: real, terms: real, finishpos: int)
    requires stake >= 0.0 && price >= 1.0 && terms >= 1.0 && finishpos > 0
    ensures DoEachWay(stake, price, terms, finishpos) >= stake
    ensures DoSingle(stake, price, finishpos) == if finishpos == 1 then stake * price else 0.0
  {
    var eachWayOdds := (price - 1.0) * (terms - 1.0);
    NonNegativeProduct(price - 1.0, terms - 1.0);
    NonNegativeProduct(eachWayOdds, stake);
  }

  lemma NonNegativeProduct(x: real, y: real)
    requires x >= 0.0 && y >= 0.0
    ensures x * y >= 0.0
  {
  }

  // ---------------------------------------------------------------------
  // How many bets are staked

  /** Binomial coefficients by Pascal's rule. */
  function Choose(n: nat, k: nat): nat {
    if k == 0 then 1
    else if n == 0 then 0
    else Choose(n - 1, k - 1) + Choose(n - 1, k)
  }

  function Pow2(n: nat): (p: nat)
    ensures p >= 1
  {
    if n == 0 then 1 else 2 * Pow2(n - 1)
  }

  /** The stakes laid per combination: one, or two with each way. */
  function PerCombination(isEachWay: bool): real {
    if isEachWay then 2.0 else 1.0
  }

  lemma {:induction false} ChooseAll(n: nat)
    ensures Choose(n, n) == 1
  {
    if n > 0 {
      ChooseAll(n - 1);
      ChooseTooMany(n - 1, n);
    }
  }

  lemma {:induction false} ChooseTooMany(n: nat, k: nat)
    requires k > n
    ensures Choose(n, k) == 0
  {
    if n > 0 {
      ChooseTooMany(n - 1, k - 1);
      ChooseTooMany(n - 1, k);
    }
  }

  /** What a leg leaves riding on the next depth: the win part settled on it, and the place part when the bet is each way. */
  function WinAfter(leg: Leg, win: real): real {
    DoSingle(win, leg.odds, leg.position)
  }

  function PlaceAfter(leg: Leg, isEachWay: bool, ew: real): real {
    if isEachWay then DoEachWay(ew, leg.odds, leg.terms, leg.position) else ew
  }

  /** The total laid by `bets` bets at `stake` each, doubled each way, counted one bet at a time. */
  function Laid(stake: real, isEachWay: bool, bets: nat): real {
    if bets == 0 then 0.0
    else Laid(stake, isEachWay, bets - 1) + (if isEachWay then stake + stake else stake)
  }

  lemma {:induction false} LaidAdds(stake: real, isEachWay: bool, x: nat, y: nat)
    ensures Laid(stake, isEachWay, x + y) == Laid(stake, isEachWay, x) + Laid(stake, isEachWay, y)
  {
    if y > 0 {
      LaidAdds(stake, isEachWay, x, y - 1);
    }
  }

  /** Counting bets one at a time is the stake times the number of bets, times two each way. */
  lemma {:induction false} LaidIsProduct(stake: real, isEachWay: bool, bets: nat)
    ensures Laid(stake, isEachWay, bets) == stake * PerCombination(isEachWay) * bets as real
  {
    if bets > 0 {
      LaidIsProduct(stake, isEachWay, bets - 1);
    }
  }

  /** A straight type stakes nothing at sizes beyond its selection count. */
  lemma {:induction false} NothingBeyond(g: Guard, legs: seq<Leg>, bt: BetType, stake: real, isEachWay: bool, start: nat, num: nat, win: real, ew: real)
    requires !bt.accumulator && num > bt.selections
    ensures Sweep(g, legs, bt, stake, isEachWay, start, num, win, ew).stake == 0.0
    ensures Sweep(g, legs, bt, stake, isEachWay, start, num, win, ew).payout == 0.0
    decreases |legs| - start
  {
    if start < |legs| {
      var a, e := WinAfter(legs[start], win), PlaceAfter(legs[start], isEachWay, ew);
      if num < 8 {
        NothingBeyond(g, legs, bt, stake, isEachWay, start + 1, num + 1, a, e);
      }
      NothingBeyond(g, legs, bt, stake, isEachWay, start + 1, num, win, ew);
    }
  }

  /**
   * A straight type (the single, double to eightfold) stakes one bet for
   * each way of choosing the legs still missing from a combination of its
   * size among the legs still to come.
   */
  lemma {:induction false} StraightStakeCount(g: Guard, legs: seq<Leg>, bt: BetType, stake: real, isEachWay: bool, start: nat, num: nat, win: real, ew: real)
    requires !bt.accumulator && (bt.singles || bt.selections != 1) && bt.selections <= 8
    requires 1 <= num <= bt.selections && start <= |legs|
    ensures Sweep(g, legs, bt, stake, isEachWay, start, num, win, ew).stake ==
      Laid(stake, isEachWay, Choose(|legs| - start, bt.selections + 1 - num))
    decreases |legs| - start
  {
    if start < |legs| {
      var a, e := WinAfter(legs[start], win), PlaceAfter(legs[start], isEachWay, ew);
      var r, k := |legs| - start, bt.selections + 1 - num;
      StraightStakeCount(g, legs, bt, stake, isEachWay, start + 1, num, win, ew);
      if num == bt.selections {
        if num < 8 {
          NothingBeyond(g, legs, bt, stake, isEachWay, start + 1, num + 1, a, e);
        }
        assert Laid(stake, isEachWay, 1) == Laid(stake, isEachWay, 0) + RoundGain(g, bt, stake, num, isEachWay, a, e).stake;
      } else {
        StraightStakeCount(g, legs, bt, stake, isEachWay, start + 1, num + 1, a, e);
      }
      LaidAdds(stake, isEachWay, Choose(r - 1, k - 1), Choose(r - 1, k));
    }
  }

  /**
   * A full cover stakes every combination from the current one on: when
   * the guard admits every size from `num` up, it stakes one bet per
   * non-empty choice among the legs still to come.
   */
  lemma {:induction false} CoverStakeCount(g: Guard, legs: seq<Leg>, bt: BetType, stake: real, isEachWay: bool, start: nat, num: nat, win: real, ew: real)
    requires bt.accumulator && forall k: nat :: num <= k ==> Stakes(g, bt, k)
    requires start <= |legs| && num + (|legs| - start) <= 9
    ensures Sweep(g, legs, bt, stake, isEachWay, start, num, win, ew).stake == Laid(stake, isEachWay, Pow2(|legs| - start) - 1)
    decreases |legs| - start
  {
    if start < |legs| {
      var a, e := WinAfter(legs[start], win), PlaceAfter(legs[start], isEachWay, ew);
      var r := |legs| - start;
      CoverStakeCount(g, legs, bt, stake, isEachWay, start + 1, num, win, ew);
      var here := Visit(g, legs, bt, stake, isEachWay, start, num, win, ew).stake;
      assert Stakes(g, bt, num);
      assert Laid(stake, isEachWay, 1) == RoundGain(g, bt, stake, num, isEachWay, a, e).stake;
      if num < 8 {
        CoverStakeCount(g, legs, bt, stake, isEachWay, start + 1, num + 1, a, e);
        LaidAdds(stake, isEachWay, 1, Pow2(r - 1) - 1);
      } else {
        assert r == 1;
      }
      assert here == Laid(stake, isEachWay, Pow2(r - 1));
      assert Pow2(r) - 1 == Pow2(r - 1) + (Pow2(r - 1) - 1);
      LaidAdds(stake, isEachWay, Pow2(r - 1), Pow2(r - 1) - 1);
    }
  }

  /** Under the intended rule a full cover without singles stakes every combination of two or more legs. */
  lemma {:induction false} CoverWithoutSinglesStakeCount(legs: seq<Leg>, bt: BetType, stake: real, isEachWay: bool, start: nat, win: real, ew: real)
    requires bt.accumulator && !bt.singles
    requires start <= |legs| <= 8
    ensures Pow2(|legs| - start) >= 1 + (|legs| - start)
    ensures Sweep(Corrected, legs, bt, stake, isEachWay, start, 1, win, ew).stake ==
      Laid(stake, isEachWay, Pow2(|legs| - start) - 1 - (|legs| - start))
    decreases |legs| - start
  {
    if start < |legs| {
      var a, e := WinAfter(legs[start], win), PlaceAfter(legs[start], isEachWay, ew);
      var r := |legs| - start;
      assert RoundGain(Corrected, bt, stake, 1, isEachWay, a, e).stake == 0.0;
      CoverWithoutSinglesStakeCount(legs, bt, stake, isEachWay, start + 1, win, ew);
      CoverStakeCount(Corrected, legs, bt, stake, isEachWay, start + 1, 2, a, e);
      LaidAdds(stake, isEachWay, Pow2(r - 1) - 1, Pow2(r - 1) - 1 - (r - 1));
    }
  }

  /**
   * The number of bets calculator places for a bet type on as many legs
   * as it takes: one for a straight type and, since the written guard lets
   * singles through, 2^n - 1 for every full cover.
   */
  function BetCount(bt: BetType): int {
    if !bt.accumulator then 1
    else Pow2(bt.selections) - 1
  }

  /**
   * The number of bets the type means: one for a straight type, 2^n - 1
   * for a full cover with singles and 2^n - 1 - n for one without.
   */
  function IntendedBetCount(bt: BetType): int {
    if !bt.accumulator then 1
    else if bt.singles then Pow2(bt.selections) - 1
    else Pow2(bt.selections) - 1 - bt.selections
  }

  /**
   * On as many legs as its type takes, calculator lays the stake once per
   * bet it places (twice each way): once for the straight types and
   * 2^n - 1 times for every full cover, so seven bets for a trixie.
   */
  lemma TotalStake(name: string, legs: seq<Leg>, stake: real, isEachWay: bool)
    requires name in BetTypes && |legs| == BetTypes[name].selections
    ensures BetCount(BetTypes[name]) >= 1
    ensures SettleLegs(AsWritten, legs, BetTypes[name], stake, isEachWay).stake == Laid(stake, isEachWay, BetCount(BetTypes[name]))
  {
    var bt := BetTypes[name];
    CatalogueShape(name);
    if !bt.accumulator {
      StraightStakeCount(AsWritten, legs, bt, stake, isEachWay, 0, 1, stake, stake);
      ChooseAll(|legs|);
    } else {
      CoverStakeCount(AsWritten, legs, bt, stake, isEachWay, 0, 1, stake, stake);
    }
  }

  /**
   * Under the intended rule the stake is laid once per bet the type means:
   * four times for a trixie, eleven for a yankee.
   */
  lemma IntendedTotalStake(name: string, legs: seq<Leg>, stake: real, isEachWay: bool)
    requires name in BetTypes && |legs| == BetTypes[name].selections
    ensures IntendedBetCount(BetTypes[name]) >= 1
    ensures SettleLegs(Corrected, legs, BetTypes[name], stake, isEachWay).stake == Laid(stake, isEachWay, IntendedBetCount(BetTypes[name]))
  {
    var bt := BetTypes[name];
    CatalogueShape(name);
    if !bt.accumulator {
      StraightStakeCount(Corrected, legs, bt, stake, isEachWay, 0, 1, stake, stake);
      ChooseAll(|legs|);
    } else if bt.singles {
      CoverStakeCount(Corrected, legs, bt, stake, isEachWay, 0, 1, stake, stake);
    } else {
      CoverWithoutSinglesStakeCount(legs, bt, stake, isEachWay, 0, stake, stake);
    }
  }

  /** The bets calculator places per type: seven for a trixie, 15 for a yankee, 31, 63, 127 and 255 for the superyankee to the goliath. */
  lemma CatalogueBetCounts()
    ensures BetCount(BetTypes["double"]) == 1 && BetCount(BetTypes["eightfold"]) == 1
    ensures BetCount(BetTypes["trixie"]) == 7 && BetCount(BetTypes["yankee"]) == 15
    ensures BetCount(BetTypes["superyankee"]) == 31 && BetCount(BetTypes["heinz"]) == 63
    ensures BetCount(BetTypes["superheinz"]) == 127 && BetCount(BetTypes["goliath"]) == 255
    ensures BetCount(BetTypes["patent"]) == 7 && BetCount(BetTypes["lucky15"]) == 15
    ensures BetCount(BetTypes["lucky63"]) == 63 && BetCount(BetTypes["lucky255"]) == 255
  {
    Pow2Small();
  }

  /** The bets the types mean: a trixie is four (three doubles and a treble), a yankee eleven, a heinz 57, a goliath 247, a patent seven. */
  lemma IntendedBetCounts()
    ensures IntendedBetCount(BetTypes["double"]) == 1 && IntendedBetCount(BetTypes["eightfold"]) == 1
    ensures IntendedBetCount(BetTypes["trixie"]) == 4 && IntendedBetCount(BetTypes["yankee"]) == 11
    ensures IntendedBetCount(BetTypes["superyankee"]) == 26 && IntendedBetCount(BetTypes["heinz"]) == 57
    ensures IntendedBetCount(BetTypes["superheinz"]) == 120 && IntendedBetCount(BetTypes["goliath"]) == 247
    ensures IntendedBetCount(BetTypes["patent"]) == 7 && IntendedBetCount(BetTypes["lucky15"]) == 15
    ensures IntendedBetCount(BetTypes["lucky63"]) == 63 && IntendedBetCount(BetTypes["lucky255"]) == 255
  {
    Pow2Small();
  }

  lemma Pow2Small()
    ensures Pow2(3) == 8 && Pow2(4) == 16 && Pow2(5) == 32
    ensures Pow2(6) == 64 && Pow2(7) == 128 && Pow2(8) == 256
  {
    assert Pow2(3) == 8 && Pow2(4) == 16 && Pow2(5) == 32;
    assert Pow2(6) == 64 && Pow2(7) == 128;
  }

  // ---------------------------------------------------------------------
  // What the bets pay

  /** The win part of an accumulator: the amount rolled over legs `from`, `from + 1`, ... */
  function Roll(legs: seq<Leg>, from: nat, amount: real): real
    decreases |legs| - from
  {
    if from >= |legs| then amount
    else Roll(legs, from + 1, WinAfter(legs[from], amount))
  }

  /** The place part of an accumulator, rolled the same way at the place terms. */
  function RollPlace(legs: seq<Leg>, from: nat, amount: real): real
    decreases |legs| - from
  {
    if from >= |legs| then amount
    else RollPlace(legs, from + 1, PlaceAfter(legs[from], true, amount))
  }

  /** A straight type stakes nothing when too few legs remain to complete a combination of its size. */
  lemma {:induction false} TooFewLegs(g: Guard, legs: seq<Leg>, bt: BetType, stake: real, isEachWay: bool, start: nat, num: nat, win: real, ew: real)
    requires !bt.accumulator && 1 <= num <= bt.selections <= 8
    requires start <= |legs| && |legs| - start < bt.selections + 1 - num
    ensures Sweep(g, legs, bt, stake, isEachWay, start, num, win, ew).stake == 0.0
    ensures Sweep(g, legs, bt, stake, isEachWay, start, num, win, ew).payout == 0.0
    decreases |legs| - start
  {
    if start < |legs| {
      var a, e := WinAfter(legs[start], win), PlaceAfter(legs[start], isEachWay, ew);
      TooFewLegs(g, legs, bt, stake, isEachWay, start + 1, num + 1, a, e);
      TooFewLegs(g, legs, bt, stake, isEachWay, start + 1, num, win, ew);
    }
  }

  /**
   * With exactly the legs a straight type still needs, it places one bet
   * that rolls the winnings over every leg, and the place part likewise.
   */
  lemma {:induction false} StraightRollsOver(g: Guard, legs: seq<Leg>, bt: BetType, stake: real, isEachWay: bool, start: nat, num: nat, win: real, ew: real)
    requires !bt.accumulator && (bt.singles || bt.selections != 1) && bt.selections <= 8
    requires 1 <= num <= bt.selections && start <= |legs| && |legs| - start == bt.selections + 1 - num
    ensures Sweep(g, legs, bt, stake, isEachWay, start, num, win, ew).stake == if isEachWay then stake + stake else stake
    ensures Sweep(g, legs, bt, stake, isEachWay, start, num, win, ew).payout ==
      if isEachWay then Roll(legs, start, win) + RollPlace(legs, start, ew) else Roll(legs, start, win)
    decreases |legs| - start
  {
    var a, e := WinAfter(legs[start], win), PlaceAfter(legs[start], isEachWay, ew);
    TooFewLegs(g, legs, bt, stake, isEachWay, start + 1, num, win, ew);
    if num == bt.selections {
      assert start + 1 == |legs|;
      assert Roll(legs, start, win) == a;
      assert isEachWay ==> RollPlace(legs, start, ew) == e;
      var gain := RoundGain(g, bt, stake, num, isEachWay, a, e);
      assert gain == if isEachWay then Totals(stake + stake, a + e) else Totals(stake, a);
      assert Visit(g, legs, bt, stake, isEachWay, start, num, win, ew) == gain.Plus(NoTotals);
    } else {
      StraightRollsOver(g, legs, bt, stake, isEachWay, start + 1, num + 1, a, e);
    }
  }

  /**
   * A single, double, treble or n-fold on its legs is one accumulator:
   * the stake rides on the first leg, its return on the next, and so on.
   */
  lemma StraightBet(g: Guard, name: string, legs: seq<Leg>, stake: real, isEachWay: bool)
    requires name in BetTypes && !BetTypes[name].accumulator && |legs| == BetTypes[name].selections
    ensures SettleLegs(g, legs, BetTypes[name], stake, isEachWay).stake == if isEachWay then stake + stake else stake
    ensures SettleLegs(g, legs, BetTypes[name], stake, isEachWay).payout ==
      if isEachWay then Roll(legs, 0, stake) + RollPlace(legs, 0, stake) else Roll(legs, 0, stake)
  {
    CatalogueShape(name);
    StraightRollsOver(g, legs, BetTypes[name], stake, isEachWay, 0, 1, stake, stake);
  }

  /** Losers everywhere: no combination returns anything. */
  lemma {:induction false} AllLosersReturnNothing(g: Guard, legs: seq<Leg>, bt: BetType, stake: real, isEachWay: bool, start: nat, num: nat, win: real, ew: real)
    requires forall k :: start <= k < |legs| ==> legs[k].position == 0
    ensures Sweep(g, legs, bt, stake, isEachWay, start, num, win, ew).payout == 0.0
    decreases |legs| - start
  {
    if start < |legs| {
      var a, e := WinAfter(legs[start], win), PlaceAfter(legs[start], isEachWay, ew);
      assert legs[start].position == 0;
      assert a == 0.0 && (isEachWay ==> e == 0.0);
      assert RoundGain(g, bt, stake, num, isEachWay, a, e).payout == 0.0;
      if num < 8 {
        AllLosersReturnNothing(g, legs, bt, stake, isEachWay, start + 1, num + 1, a, e);
      }
      AllLosersReturnNothing(g, legs, bt, stake, isEachWay, start + 1, num, win, ew);
    }
  }

  /** Once nothing rides on a combination, no extension of it returns anything. */
  lemma {:induction false} NothingRiding(g: Guard, legs: seq<Leg>, bt: BetType, stake: real, isEachWay: bool, start: nat, num: nat)
    ensures Sweep(g, legs, bt, stake, isEachWay, start, num, 0.0, 0.0).payout == 0.0
    decreases |legs| - start
  {
    if start < |legs| {
      var leg := legs[start];
      assert WinAfter(leg, 0.0) == 0.0 && PlaceAfter(leg, isEachWay, 0.0) == 0.0;
      if num < 8 {
        NothingRiding(g, legs, bt, stake, isEachWay, start + 1, num + 1);
      }
      NothingRiding(g, legs, bt, stake, isEachWay, start + 1, num);
    }
  }

  /**
   * A losing leg zeroes every combination that contains it: the visit of
   * leg `i` at any depth, which settles the combinations ending at it and
   * all their extensions, returns nothing.
   */
  lemma LoserPaysNothing(g: Guard, legs: seq<Leg>, bt: BetType, stake: real, isEachWay: bool, i: nat, num: nat, win: real, ew: real)
    requires i < |legs| && legs[i].position == 0
    ensures Visit(g, legs, bt, stake, isEachWay, i, num, win, ew).payout == 0.0
  {
    var e := PlaceAfter(legs[i], isEachWay, ew);
    if num < 8 {
      if !isEachWay {
        SweepIgnoresEachWay(g, legs, bt, stake, i + 1, num + 1, 0.0, e, 0.0);
      }
      NothingRiding(g, legs, bt, stake, isEachWay, i + 1, num + 1);
    }
  }

  /** Void legs everywhere: every staked bet returns its stake, so the returns equal the total stake. */
  lemma {:induction false} AllVoidReturnsStake(g: Guard, legs: seq<Leg>, bt: BetType, stake: real, isEachWay: bool, start: nat, num: nat)
    requires forall k :: start <= k < |legs| ==> legs[k].position < 0
    ensures Sweep(g, legs, bt, stake, isEachWay, start, num, stake, stake).payout ==
      Sweep(g, legs, bt, stake, isEachWay, start, num, stake, stake).stake
    decreases |legs| - start
  {
    if start < |legs| {
      AllVoidReturnsStake(g, legs, bt, stake, isEachWay, start + 1, num + 1);
      VoidVisit(g, legs, bt, stake, isEachWay, start, num);
      AllVoidReturnsStake(g, legs, bt, stake, isEachWay, start + 1, num);
    }
  }

  /** A void leg passes the stake through unchanged, so its visit returns what it stakes when the deeper loops do. */
  lemma VoidVisit(g: Guard, legs: seq<Leg>, bt: BetType, stake: real, isEachWay: bool, i: nat, num: nat)
    requires i < |legs| && legs[i].position < 0
    requires num < 8 ==>
      Sweep(g, legs, bt, stake, isEachWay, i + 1, num + 1, stake, stake).payout ==
      Sweep(g, legs, bt, stake, isEachWay, i + 1, num + 1, stake, stake).stake
    ensures Visit(g, legs, bt, stake, isEachWay, i, num, stake, stake).payout ==
      Visit(g, legs, bt, stake, isEachWay, i, num, stake, stake).stake
  {
    assert WinAfter(legs[i], stake) == stake && PlaceAfter(legs[i], isEachWay, stake) == stake;
  }

  // ---------------------------------------------------------------------
  // Rounding

  /** round() lands within half a cent of its argument and keeps whole cents as they are. */
  lemma RoundToCentsError(x: real)
    ensures x - 0.005 < RoundToCents(x) <= x + 0.005
    ensures (x * 100.0).Floor as real == x * 100.0 ==> RoundToCents(x) == x
  {
    var y := x * 100.0;
    assert (y + 0.5).Floor as real <= y + 0.5 < (y + 0.5).Floor as real + 1.0;
    if y.Floor as real == y {
      assert (y + 0.5).Floor == y.Floor;
    }
  }

  /**
   * The profit is rounded from the unrounded sums, not taken from the
   * rounded ones, so it may differ from returns less stake as reported by
   * a cent either way, and by no more.
   */
  lemma ProfitWithinACent(t: Totals)
    ensures Rounded(t).totalReturn - Rounded(t).totalStake - Rounded(t).profit in {-0.01, 0.0, 0.01}
  {
    var s, p, d := Round(t.stake * 100.0), Round(t.payout * 100.0), Round((t.payout - t.stake) * 100.0);
    assert t.stake * 100.0 - 0.5 < s as real <= t.stake * 100.0 + 0.5;
    assert t.payout * 100.0 - 0.5 < p as real <= t.payout * 100.0 + 0.5;
    assert (t.payout - t.stake) * 100.0 - 0.5 < d as real <= (t.payout - t.stake) * 100.0 + 0.5;
    assert -1 <= p - s - d <= 1;
    assert Rounded(t).totalReturn - Rounded(t).totalStake - Rounded(t).profit == (p - s - d) as real / 100.0;
  }

  // ---------------------------------------------------------------------
  // calculator

  /**
   * The checks come in calculator's order: a missing betslip, then the
   * stake (a zero stake returns {0, 0, 0} whatever the type and runners),
   * then the type, and only then the runners.
   */
  lemma ChecksInOrder(g: Guard, stake: real, name: string, isEachWay: bool, runners: RunnersValue)
    ensures Calculation(g, None, runners) == Err(NoBetslip)
    ensures Calculation(g, Some(Betslip(Stake.NotANumber, name, isEachWay)), runners) == Err(StakeNotANumber)
    ensures Calculation(g, Some(Betslip(Amount(0.0), name, isEachWay)), runners) == Ok(NullResult)
    ensures stake != 0.0 && Lower(name) !in BetTypes ==>
      Calculation(g, Some(Betslip(Amount(stake), name, isEachWay)), runners) == Err(UnrecognisedBetType(Lower(name)))
    ensures stake != 0.0 && Lower(name) in BetTypes ==>
      Calculation(g, Some(Betslip(Amount(stake), name, isEachWay)), NoRunners) == Ok(NullResult) &&
      Calculation(g, Some(Betslip(Amount(stake), name, isEachWay)), NotAnArray) == Err(NotAnArrayOfRunners)
  {
  }

  /**
   * Past the checks, calculator settles the legs the runners normalise to
   * under the named type, and reports the rounded sums.
   */
  lemma CalculationSettles(g: Guard, name: string, stake: real, isEachWay: bool, rs: seq<Runner>, legs: seq<Leg>)
    requires stake != 0.0 && Lower(name) in BetTypes && |rs| == BetTypes[Lower(name)].selections
    requires NormaliseRunners(rs) == Ok(legs)
    ensures Calculation(g, Some(Betslip(Amount(stake), name, isEachWay)), RunnerList(rs)) ==
      Ok(Rounded(SettleLegs(g, legs, BetTypes[Lower(name)], stake, isEachWay)))
  {
  }

  /** The bet type is matched without regard to case: a type written back lower-cased settles the same. */
  lemma TypeCaseInsensitive(g: Guard, stake: Stake, name: string, isEachWay: bool, runners: RunnersValue)
    ensures Calculation(g, Some(Betslip(stake, name, isEachWay)), runners) == Calculation(g, Some(Betslip(stake, Lower(name), isEachWay)), runners)
  {
    LowerIdempotent(name);
  }

  // ---------------------------------------------------------------------
  // Normalising the runners

  /**
   * From index `i` on, the conversion succeeds exactly when every runner's
   * price and terms convert, and then yields one leg per runner in order;
   * otherwise its error is that of the first runner that fails.
   */
  lemma {:induction false} NormaliseFromMeaning(rs: seq<Runner>, ps: seq<Prices>, i: nat)
    requires |ps| == |rs| && i <= |rs|
    ensures NormaliseFrom(rs, ps, i).Ok? <==> forall k :: i <= k < |rs| ==> RunnerLeg(rs[k], ps[k]).Ok?
    ensures NormaliseFrom(rs, ps, i).Ok? ==>
      |NormaliseFrom(rs, ps, i).value| == |rs| - i &&
      forall k :: i <= k < |rs| ==> NormaliseFrom(rs, ps, i).value[k - i] == RunnerLeg(rs[k], ps[k]).value
    ensures NormaliseFrom(rs, ps, i).Err? ==>
      exists k :: i <= k < |rs| && RunnerLeg(rs[k], ps[k]) == Err(NormaliseFrom(rs, ps, i).error) &&
        forall j :: i <= j < k ==> RunnerLeg(rs[j], ps[j]).Ok?
    decreases |rs| - i
  {
    if i < |rs| {
      NormaliseFromMeaning(rs, ps, i + 1);
      var r := NormaliseFrom(rs, ps, i);
      if RunnerLeg(rs[i], ps[i]).Err? {
        assert RunnerLeg(rs[i], ps[i]) == Err(r.error);
      } else if r.Ok? {
        var rest := NormaliseFrom(rs, ps, i + 1).value;
        assert r.value == [RunnerLeg(rs[i], ps[i]).value] + rest;
        forall k | i < k < |rs|
          ensures r.value[k - i] == RunnerLeg(rs[k], ps[k]).value
        {
          assert r.value[k - i] == rest[k - (i + 1)];
        }
      } else {
        var k :| i + 1 <= k < |rs| && RunnerLeg(rs[k], ps[k]) == Err(NormaliseFrom(rs, ps, i + 1).error) &&
          forall j :: i + 1 <= j < k ==> RunnerLeg(rs[j], ps[j]).Ok?;
        assert RunnerLeg(rs[k], ps[k]) == Err(r.error);
      }
    }
  }

  /**
   * calculator's normalisation loop: it succeeds exactly when every
   * runner's price and place terms convert, and then leg k is runner k's
   * decimal price, decimal terms and position; otherwise it fails with the
   * error of the first runner that does not convert (its price's error
   * before its terms').
   */
  lemma NormaliseRunnersMeaning(rs: seq<Runner>)
    ensures NormaliseRunners(rs).Ok? <==> forall k :: 0 <= k < |rs| ==> RunnerLeg(rs[k], PricesFor(rs[k])).Ok?
    ensures NormaliseRunners(rs).Ok? ==>
      |NormaliseRunners(rs).value| == |rs| &&
      forall k :: 0 <= k < |rs| ==> RunnerLeg(rs[k], PricesFor(rs[k])) == Ok(NormaliseRunners(rs).value[k])
    ensures NormaliseRunners(rs).Err? ==>
      exists k :: 0 <= k < |rs| && RunnerLeg(rs[k], PricesFor(rs[k])) == Err(NormaliseRunners(rs).error) &&
        forall j :: 0 <= j < k ==> RunnerLeg(rs[j], PricesFor(rs[j])).Ok?
  {
    var ps := PricesOf(rs);
    NormaliseFromMeaning(rs, ps, 0);
    assert forall k :: 0 <= k < |rs| ==> ps[k] == PricesFor(rs[k]);
  }

  /** The loop leaves as many runners as it found, each rewritten as far as its conversion got, up to the first that fails. */
  lemma {:induction false} NormalisedFromShape(rs: seq<Runner>, ps: seq<Prices>, i: nat)
    requires |ps| == |rs| && i <= |rs|
    ensures |NormalisedFrom(rs, ps, i)| == |rs| - i
    ensures NormaliseFrom(rs, ps, i).Ok? ==>
      forall k :: i <= k < |rs| ==> NormalisedFrom(rs, ps, i)[k - i] == Rewrite(rs[k], ps[k])
    decreases |rs| - i
  {
    if i < |rs| {
      NormalisedFromShape(rs, ps, i + 1);
      if NormaliseFrom(rs, ps, i).Ok? {
        var rest := NormalisedFrom(rs, ps, i + 1);
        assert RunnerLeg(rs[i], ps[i]).Ok?;
        assert NormaliseFrom(rs, ps, i + 1).Ok?;
        assert NormalisedFrom(rs, ps, i) == [Rewrite(rs[i], ps[i])] + rest;
        forall k | i < k < |rs|
          ensures NormalisedFrom(rs, ps, i)[k - i] == Rewrite(rs[k], ps[k])
        {
          assert NormalisedFrom(rs, ps, i)[k - i] == rest[k - (i + 1)];
        }
      }
    }
  }

  /**
   * After a successful normalisation each runner in the caller's array
   * holds its decimal price and terms as numbers, its position unchanged.
   */
  lemma NormalisedRunners(rs: seq<Runner>)
    requires NormaliseRunners(rs).Ok?
    ensures |Normalised(rs)| == |rs| == |NormaliseRunners(rs).value|
    ensures forall k :: 0 <= k < |rs| ==>
      Normalised(rs)[k] ==
        Runner(Number(NormaliseRunners(rs).value[k].odds), Number(NormaliseRunners(rs).value[k].terms), rs[k].position)
  {
    var ps := PricesOf(rs);
    NormalisedFromShape(rs, ps, 0);
    NormaliseRunnersMeaning(rs);
    assert forall k :: 0 <= k < |rs| ==> ps[k] == PricesFor(rs[k]);
  }

  /** A decimal number above 1 converts to itself. */
  lemma DecimalNumber(x: real)
    requires x > 1.0
    ensures ToDecimal(Number(x)) == Ok(x)
  {
  }

  /**
   * Calling calculator again on the runners it has rewritten gives the
   * same result, provided every price and every place term it converted
   * came out above 1 (a term such as "0/1" converts to exactly 1, and
   * 1 is then refused as a decimal price: see RewrittenEvensRefused).
   */
  lemma RecalculationStable(g: Guard, slip: Option<Betslip>, rs: seq<Runner>)
    requires NormaliseRunners(rs).Ok?
    requires forall leg :: leg in NormaliseRunners(rs).value ==> leg.odds > 1.0 && leg.terms > 1.0
    ensures NormaliseRunners(Normalised(rs)) == NormaliseRunners(rs)
    ensures Calculation(g, slip, RunnerList(Normalised(rs))) == Calculation(g, slip, RunnerList(rs))
  {
    var again, legs := Normalised(rs), NormaliseRunners(rs).value;
    NormalisedRunners(rs);
    NormaliseRunnersMeaning(rs);
    forall k | 0 <= k < |again|
      ensures RunnerLeg(again[k], PricesFor(again[k])) == Ok(legs[k])
    {
      assert legs[k] in legs;
      DecimalNumber(legs[k].odds);
      DecimalNumber(legs[k].terms);
    }
    NormaliseRunnersMeaning(again);
    var redone := NormaliseRunners(again).value;
    assert |redone| == |legs|;
    forall k | 0 <= k < |legs|
      ensures redone[k] == legs[k]
    {
    }
    assert redone == legs;
  }
}
