/**
 * The settlement engine of lib/betcruncher.js. Given a betslip (bet type,
 * stake, each-way flag) and the settled runners, it enumerates every
 * combination of runners in index order, settles each one leg by leg and
 * adds the staked ones to a total stake and a total return.
 */
module BetCruncher {
  import opened Wrappers
  import opened Numerals
  import opened OddsConverter

  // ---------------------------------------------------------------------
  // The bet types

  /**
   * A bet type: the number of selections it takes, whether it stakes
   * combinations of every size (a full cover) or only the full-size one,
   * and whether it counts singles.
   */
  datatype BetType = BetType(selections: nat, accumulator: bool, singles: bool)

  const BetTypes: map<string, BetType> := map[
    // the basics
    "single" := BetType(1, false, true),
    "double" := BetType(2, false, false),
    "treble" := BetType(3, false, false),
    // simple accumulators
    "fourfold" := BetType(4, false, false),
    "fivefold" := BetType(5, false, false),
    "sixfold" := BetType(6, false, false),
    "sevenfold" := BetType(7, false, false),
    "eightfold" := BetType(8, false, false),
    // full covers
    "trixie" := BetType(3, true, false),
    "yankee" := BetType(4, true, false),
    "superyankee" := BetType(5, true, false),
    "heinz" := BetType(6, true, false),
    "superheinz" := BetType(7, true, false),
    "goliath" := BetType(8, true, false),
    // full covers with singles
    "patent" := BetType(3, true, true),
    "lucky15" := BetType(4, true, true),
    "lucky31" := BetType(5, true, true),
    "lucky63" := BetType(6, true, true),
    "lucky127" := BetType(7, true, true),
    "lucky255" := BetType(8, true, true)
  ]

  // ---------------------------------------------------------------------
  // Settling one leg

  /** round(): Math.round(number * 100) / 100, to the nearest cent with halves upwards. */
  function RoundToCents(x: real): real {
    Round(x * 100.0) as real / 100.0
  }

  /** doSingle: a winner pays stake times price, a void leg returns the stake, anything else loses. */
  function DoSingle(stake: real, price: real, finishpos: int): real {
    if finishpos == 1 then stake * price
    else if finishpos < 0 then stake
    else 0.0
  }

  /**
   * doEachWay: any runner that finishes in a positive position (the winner
   * included) pays the stake plus the place fraction of the winnings;
   * void returns the stake; anything else loses.
   */
  function DoEachWay(stake: real, price: real, terms: real, finishpos: int): real {
    if finishpos > 0 then
      var eachWayOdds := (price - 1.0) * (terms - 1.0);
      stake + eachWayOdds * stake
    else if finishpos < 0 then stake
    else 0.0
  }

  /**
   * The staking test of doRound exactly as lib/betcruncher.js writes it
   * ("Voodoo..."): its first half reads the type's `selections` where the
   * combination size `num` is meant, so a full cover without singles still
   * stakes its singles. This is the test calculator runs; `Staked` is the
   * rule the bet types mean.
   */
  predicate ShouldDoAccumulator(bt: BetType, num: nat) {
    !(bt.selections == 1 && !bt.singles) && (bt.accumulator || bt.selections == num)
  }

  /**
   * The staking test as the bet types mean it: a combination of size `num`
   * is staked when the type is a full cover or `num` is its selection
   * count, except that singles (`num == 1`) need a type that includes them.
   */
  predicate Staked(bt: BetType, num: nat) {
    !(num == 1 && !bt.singles) && (bt.accumulator || bt.selections == num)
  }

  /**
   * Which staking test settles the combinations: the guard as the code has
   * it (what calculator computes), or the rule the bet types mean.
   */
  datatype Guard = AsWritten | Corrected

  predicate Stakes(g: Guard, bt: BetType, num: nat) {
    match g
    case AsWritten => ShouldDoAccumulator(bt, num)
    case Corrected => Staked(bt, num)
  }

  // ---------------------------------------------------------------------
  // Enumerating the combinations

  /** A runner after normalisation: decimal price, decimal place terms and finishing position. */
  datatype Leg = Leg(odds: real, terms: real, position: int)

  /** A pair of running sums: the stake laid and the amount returned. */
  datatype Totals = Totals(stake: real, payout: real) {
    function Plus(other: Totals): Totals {
      Totals(stake + other.stake, payout + other.payout)
    }
  }

  const NoTotals := Totals(0.0, 0.0)

  /** What doRound adds for a combination of size `num` whose amounts are `amount` (win part) and `eachWayAmount` (place part). */
  function RoundGain(g: Guard, bt: BetType, stake: real, num: nat, isEachWay: bool, amount: real, eachWayAmount: real): Totals {
    if !Stakes(g, bt, num) then NoTotals
    else if isEachWay then Totals(stake + stake, amount + eachWayAmount)
    else Totals(stake, amount)
  }

  /**
   * The sums one iteration of the loop at depth `num` adds, at index `i`,
   * with `win` and `ew` the amounts of the enclosing combination
   * (amounts[num - 1] and eachWayAmounts[num - 1]): the leg is settled on top
   * of them, the result is added when the size is staked, and below depth 8
   * the next loop runs from the following index.
   */
  function Visit(g: Guard, legs: seq<Leg>, bt: BetType, stake: real, isEachWay: bool, i: nat, num: nat, win: real, ew: real): Totals
    requires i < |legs|
    decreases |legs| - i, 0
  {
    var leg := legs[i];
    var amount := DoSingle(win, leg.odds, leg.position);
    var eachWayAmount := if isEachWay then DoEachWay(ew, leg.odds, leg.terms, leg.position) else ew;
    var here := RoundGain(g, bt, stake, num, isEachWay, amount, eachWayAmount);
    here.Plus(if num < 8 then Sweep(g, legs, bt, stake, isEachWay, i + 1, num + 1, amount, eachWayAmount) else NoTotals)
  }

  /** The sums the loop at depth `num` adds, running over indices `start`, `start + 1`, ... */
  function Sweep(g: Guard, legs: seq<Leg>, bt: BetType, stake: real, isEachWay: bool, start: nat, num: nat, win: real, ew: real): Totals
    decreases |legs| - start, 1
  {
    if start >= |legs| then NoTotals
    else Visit(g, legs, bt, stake, isEachWay, start, num, win, ew).Plus(Sweep(g, legs, bt, stake, isEachWay, start + 1, num, win, ew))
  }

  /** The whole enumeration: depth 1 from index 0, both running amounts starting at the stake. */
  function SettleLegs(g: Guard, legs: seq<Leg>, bt: BetType, stake: real, isEachWay: bool): Totals {
    Sweep(g, legs, bt, stake, isEachWay, 0, 1, stake, stake)
  }

  // ---------------------------------------------------------------------
  // Validation and the result

  /** A stake after `parseFloat`: a number, or NaN. */
  datatype Stake = Amount(value: real) | NotANumber

  /** A betslip's fields as the caller passes them (a missing type is the empty string). */
  datatype Betslip = Betslip(stake: Stake, betType: string, eachWay: bool)

  /** A runner as passed: price and place terms in any odds format, and the finishing position (1 won, above 1 placed, 0 lost, negative void). */
  datatype Runner = Runner(odds: Odds, terms: Odds, position: int)

  /** The `runners` argument: absent (or otherwise falsy), something that is not an array, or an array of runners. */
  datatype RunnersValue = NoRunners | NotAnArray | RunnerList(runners: seq<Runner>)

  /** The errors calculator throws. */
  datatype CalcError =
    | NoBetslip
    | StakeNotANumber
    | UnrecognisedBetType(name: string)
    | NotAnArrayOfRunners
    | WrongNumberOfRunners(expected: nat, found: nat)
    | BadPrice(reason: ConvertError)

  datatype Settlement = Settlement(totalStake: real, totalReturn: real, profit: real)

  const NullResult := Settlement(0.0, 0.0, 0.0)

  /** A betslip that passed its checks: the bet type found, the stake, and the each-way flag. */
  datatype Ticket = Ticket(bt: BetType, stake: real, isEachWay: bool)

  /**
   * calculator's checks on the betslip, in its order: Ok(None) for a zero
   * stake (the {0, 0, 0} result), Ok(Some(ticket)) to go on.
   */
  function SlipChecks(slip: Option<Betslip>): Result<Option<Ticket>, CalcError> {
    if slip.None? then Err(NoBetslip)
    else if slip.value.stake.NotANumber? then Err(StakeNotANumber)
    else if slip.value.stake.value == 0.0 then Ok(None)
    else
      var name := Lower(slip.value.betType);
      if name !in BetTypes then Err(UnrecognisedBetType(name))
      else Ok(Some(Ticket(BetTypes[name], slip.value.stake.value, slip.value.eachWay)))
  }

  /** Whether the runners reach the normalisation loop: an array of as many runners as the type takes. */
  predicate Reaches(t: Ticket, runners: RunnersValue) {
    runners.RunnerList? && |runners.runners| == t.bt.selections
  }

  /** The two conversions of one runner: its price and its place terms. */
  datatype Prices = Prices(odds: Result<real, ConvertError>, terms: Result<real, ConvertError>)

  function PricesFor(x: Runner): Prices {
    Prices(ToDecimal(x.odds), ToDecimal(x.terms))
  }

  function PricesOf(rs: seq<Runner>): (ps: seq<Prices>)
    ensures |ps| == |rs|
  {
    seq(|rs|, k requires 0 <= k < |rs| => PricesFor(rs[k]))
  }

  /** One runner settled into a leg, given its conversions: the price's error first, then the terms'. */
  function RunnerLeg(x: Runner, p: Prices): Result<Leg, ConvertError> {
    match p.odds
    case Err(e) => Err(e)
    case Ok(odds) =>
      match p.terms
      case Err(e) => Err(e)
      case Ok(terms) => Ok(Leg(odds, terms, x.position))
  }

  /** One runner as the loop writes it back: the price is replaced once it converts, then the terms. */
  function Rewrite(x: Runner, p: Prices): Runner {
    match p.odds
    case Err(_) => x
    case Ok(odds) =>
      match p.terms
      case Err(_) => x.(odds := Number(odds))
      case Ok(terms) => Runner(Number(odds), Number(terms), x.position)
  }

  /**
   * Converts the runners from index `i` on, `ps` holding each runner's
   * conversions; the first price that fails is the error.
   */
  function NormaliseFrom(rs: seq<Runner>, ps: seq<Prices>, i: nat): Result<seq<Leg>, ConvertError>
    requires |ps| == |rs|
    decreases |rs| - i
  {
    if i >= |rs| then Ok([])
    else
      match RunnerLeg(rs[i], ps[i])
      case Err(e) => Err(e)
      case Ok(leg) => Chain([leg], NormaliseFrom(rs, ps, i + 1))
  }

  /** The runners from index `i` on as the loop writes them back, up to the first price that fails. */
  function NormalisedFrom(rs: seq<Runner>, ps: seq<Prices>, i: nat): seq<Runner>
    requires |ps| == |rs|
    decreases |rs| - i
  {
    if i >= |rs| then []
    else [Rewrite(rs[i], ps[i])] + if RunnerLeg(rs[i], ps[i]).Err? then rs[i + 1..] else NormalisedFrom(rs, ps, i + 1)
  }

  /** Overwriting the first unwritten runner. */
  lemma WriteAt(written: seq<Runner>, rs: seq<Runner>, i: nat, x: Runner)
    requires |written| == i < |rs|
    ensures (written + rs[i..])[i] == rs[i]
    ensures (written + rs[i..])[i := x] == written + [x] + rs[i + 1..]
    ensures written + ([x] + rs[i + 1..]) == (written + [x]) + rs[i + 1..]
  {
    assert rs[i..] == [rs[i]] + rs[i + 1..];
  }

  /** When the first `i` runners convert, the legs start with theirs. */
  lemma {:induction false} ConvertedLegs(rs: seq<Runner>, ps: seq<Prices>, i: nat, legs: seq<Leg>)
    requires |ps| == |rs| && i <= |rs| && |legs| == i
    requires forall k :: 0 <= k < i ==> RunnerLeg(rs[k], ps[k]) == Ok(legs[k])
    ensures NormaliseFrom(rs, ps, 0) == Chain(legs, NormaliseFrom(rs, ps, i))
  {
    if i == 0 {
      ChainEmpty(NormaliseFrom(rs, ps, 0));
    } else {
      var init := legs[..i - 1];
      ConvertedLegs(rs, ps, i - 1, init);
      assert RunnerLeg(rs[i - 1], ps[i - 1]) == Ok(legs[i - 1]);
      ChainAppend(init, legs[i - 1], NormaliseFrom(rs, ps, i));
      assert init + [legs[i - 1]] == legs;
    }
  }

  /** When the first `i` runners convert, the rewritten array starts with them rewritten. */
  lemma {:induction false} ConvertedRunners(rs: seq<Runner>, ps: seq<Prices>, i: nat, written: seq<Runner>)
    requires |ps| == |rs| && i <= |rs| && |written| == i
    requires forall k :: 0 <= k < i ==> RunnerLeg(rs[k], ps[k]).Ok? && written[k] == Rewrite(rs[k], ps[k])
    ensures NormalisedFrom(rs, ps, 0) == written + NormalisedFrom(rs, ps, i)
  {
    if i > 0 {
      var init, last := written[..i - 1], written[i - 1];
      assert forall k :: 0 <= k < i - 1 ==> init[k] == written[k];
      ConvertedRunners(rs, ps, i - 1, init);
      var rest := NormalisedFrom(rs, ps, i);
      assert RunnerLeg(rs[i - 1], ps[i - 1]).Ok? && last == Rewrite(rs[i - 1], ps[i - 1]);
      assert NormalisedFrom(rs, ps, i - 1) == [last] + rest;
      assert written == init + [last];
      AppendRunner(init, last, rest);
    }
  }

  lemma AppendRunner(init: seq<Runner>, last: Runner, rest: seq<Runner>)
    ensures init + ([last] + rest) == (init + [last]) + rest
  {
  }

  lemma ChainAppend(prefix: seq<Leg>, leg: Leg, rest: Result<seq<Leg>, ConvertError>)
    ensures Chain(prefix, Chain([leg], rest)) == Chain(prefix + [leg], rest)
  {
    if rest.Ok? {
      assert prefix + ([leg] + rest.value) == (prefix + [leg]) + rest.value;
    }
  }

  /** Converts every runner's price and terms to decimal, in order; the first price that fails is the error. */
  function NormaliseRunners(rs: seq<Runner>): Result<seq<Leg>, ConvertError> {
    NormaliseFrom(rs, PricesOf(rs), 0)
  }

  /** The runners as the normalisation loop leaves them: rewritten in place up to the first price that fails. */
  function Normalised(rs: seq<Runner>): seq<Runner> {
    NormalisedFrom(rs, PricesOf(rs), 0)
  }

  /** The rounded result: stake, returns, and the profit rounded from the unrounded sums. */
  function Rounded(t: Totals): Settlement {
    Settlement(RoundToCents(t.stake), RoundToCents(t.payout), RoundToCents(t.payout - t.stake))
  }

  /** The rest of calculator once the betslip passed: the runner checks, the normalisation, the enumeration and the rounding. */
  function SettleRunners(g: Guard, t: Ticket, runners: RunnersValue): Result<Settlement, CalcError> {
    match runners
    case NoRunners => Ok(NullResult)
    case NotAnArray => Err(NotAnArrayOfRunners)
    case RunnerList(rs) =>
      if t.bt.selections != |rs| then Err(WrongNumberOfRunners(t.bt.selections, |rs|))
      else
        match NormaliseRunners(rs)
        case Err(e) => Err(BadPrice(e))
        case Ok(legs) => Ok(Rounded(SettleLegs(g, legs, t.bt, t.stake, t.isEachWay)))
  }

  /** What calculator returns, or the error it throws. */
  function Calculation(g: Guard, slip: Option<Betslip>, runners: RunnersValue): Result<Settlement, CalcError> {
    match SlipChecks(slip)
    case Err(e) => Err(e)
    case Ok(None) => Ok(NullResult)
    case Ok(Some(t)) => SettleRunners(g, t, runners)
  }

  /** The legs the enumeration runs over, when calculator gets that far. */
  function Enumerated(t: Ticket, runners: RunnersValue): Option<seq<Leg>> {
    if Reaches(t, runners) && NormaliseRunners(runners.runners).Ok? then Some(NormaliseRunners(runners.runners).value)
    else None
  }

  /** The ticket and legs of a call that gets as far as the enumeration. */
  function Entered(slip: Option<Betslip>, runners: RunnersValue): Option<(Ticket, seq<Leg>)> {
    match SlipChecks(slip)
    case Ok(Some(t)) =>
      (match Enumerated(t, runners)
       case Some(legs) => Some((t, legs))
       case None => None)
    case _ => None
  }

  /** The betslip object; calculator writes its lower-cased type back into it. */
  class BetSlip {
    var stake: Stake
    var betType: string
    var eachWay: bool

    constructor (stake: Stake, betType: string, eachWay: bool)
      ensures this.stake == stake && this.betType == betType && this.eachWay == eachWay
    {
      this.stake := stake;
      this.betType := betType;
      this.eachWay := eachWay;
    }
  }

  function SlipValue(b: BetSlip?): Option<Betslip>
    reads b
  {
    if b == null then None else Some(Betslip(b.stake, b.betType, b.eachWay))
  }

  /** The `runners` argument; an array's elements are rewritten by the normalisation. */
  datatype RunnersArg = Absent | NotAList | List(items: array<Runner>)

  function RunnersFrame(arg: RunnersArg): set<object> {
    if arg.List? then {arg.items} else {}
  }

  function RunnersOf(arg: RunnersArg): RunnersValue
    reads RunnersFrame(arg)
  {
    match arg
    case Absent => NoRunners
    case NotAList => NotAnArray
    case List(items) => RunnerList(items[..])
  }

  /** JavaScript array assignment `s[i] = v` with `i <= s.length`: replace, or append at the end. */
  function Store(s: seq<real>, i: nat, v: real): (r: seq<real>)
    requires i <= |s|
  {
    if i < |s| then s[i := v] else s + [v]
  }

  lemma StoreKeepsPrefix(s: seq<real>, i: nat, v: real, n: nat)
    requires n <= i <= |s|
    ensures |Store(s, i, v)| > i && Store(s, i, v)[i] == v
    ensures Store(s, i, v)[..n] == s[..n]
  {
  }

  lemma ShorterPrefix(a: seq<real>, b: seq<real>, n: nat, m: nat)
    requires m <= n <= |a| && n <= |b| && a[..n] == b[..n]
    ensures a[..m] == b[..m]
  {
    assert a[..m] == a[..n][..m];
    assert b[..m] == b[..n][..m];
  }

  /** The element at depth `num - 1`, when there is one. */
  function At(s: seq<real>, num: nat): real {
    if 1 <= num <= |s| then s[num - 1] else 0.0
  }

  /** Combines a settled prefix of legs with the outcome for the rest. */
  function Chain(prefix: seq<Leg>, rest: Result<seq<Leg>, ConvertError>): Result<seq<Leg>, ConvertError> {
    match rest
    case Err(e) => Err(e)
    case Ok(legs) => Ok(prefix + legs)
  }

  lemma ChainEmpty(r: Result<seq<Leg>, ConvertError>)
    ensures Chain([], r) == r
  {
    if r.Ok? {
      assert [] + r.value == r.value;
    }
  }

  lemma Regroup(a: Totals, b: Totals, c: Totals)
    ensures a.Plus(b).Plus(c) == a.Plus(b.Plus(c))
    ensures a.Plus(b.Plus(NoTotals)) == a.Plus(b)
    ensures a.Plus(b).Plus(NoTotals) == a.Plus(b)
  {
  }

  /** Without each way the place amounts are never read. */
  lemma {:induction false} SweepIgnoresEachWay(g: Guard, legs: seq<Leg>, bt: BetType, stake: real, start: nat, num: nat, win: real, ew1: real, ew2: real)
    ensures Sweep(g, legs, bt, stake, false, start, num, win, ew1) == Sweep(g, legs, bt, stake, false, start, num, win, ew2)
    ensures start < |legs| ==> Visit(g, legs, bt, stake, false, start, num, win, ew1) == Visit(g, legs, bt, stake, false, start, num, win, ew2)
    decreases |legs| - start
  {
    if start < |legs| {
      var leg := legs[start];
      var amount := DoSingle(win, leg.odds, leg.position);
      if num < 8 {
        SweepIgnoresEachWay(g, legs, bt, stake, start + 1, num + 1, amount, ew1, ew2);
      }
      SweepIgnoresEachWay(g, legs, bt, stake, start + 1, num, win, ew1, ew2);
    }
  }

  /** `oddsConverter.convert(odds).decimal`, or the error convert throws. */
  method DecimalOf(o: Odds) returns (r: Result<real, ConvertError>)
    ensures r == ToDecimal(o)
  {
    var converted := Convert(o);
    ToDecimalIsConvertDecimal(o);
    if converted.Err? {
      return Err(converted.error);
    }
    return Ok(converted.value.decimal);
  }

  /**
   * One pass of the normalisation loop: runner `i`'s price, then its place
   * terms, converted and written back as far as they convert.
   */
  method ConvertRunner(items: array<Runner>, i: nat) returns (r: Result<Leg, ConvertError>)
    requires i < items.Length
    modifies items
    ensures r == RunnerLeg(old(items[i]), PricesFor(old(items[i])))
    ensures items[..] == old(items[..])[i := Rewrite(old(items[i]), PricesFor(old(items[i])))]
  {
    var odds := DecimalOf(items[i].odds);
    if odds.Err? {
      return Err(odds.error);
    }
    items[i] := items[i].(odds := Number(odds.value));
    var terms := DecimalOf(items[i].terms);
    if terms.Err? {
      return Err(terms.error);
    }
    items[i] := items[i].(terms := Number(terms.value));
    r := Ok(Leg(odds.value, terms.value, items[i].position));
  }

  /**
   * The normalisation loop of calculator: runner by runner, stopping at the
   * first price that does not convert.
   */
  method NormaliseInPlace(items: array<Runner>) returns (r: Result<seq<Leg>, ConvertError>)
    modifies items
    ensures r == NormaliseRunners(old(items[..]))
    ensures items[..] == Normalised(old(items[..]))
  {
    ghost var rs := items[..];
    ghost var ps := PricesOf(rs);
    ghost var written: seq<Runner> := [];
    var legs: seq<Leg> := [];
    var i := 0;
    while i < items.Length
      invariant 0 <= i <= items.Length && |legs| == i && |written| == i
      invariant items[..] == written + rs[i..]
      invariant ConvertedPrefix(rs, ps, legs, written)
    {
      ghost var runner := items[i];
      assert runner == rs[i] && ps[i] == PricesFor(runner);
      ghost var x := Rewrite(runner, PricesFor(runner));
      WriteAt(written, rs, i, x);
      var leg := ConvertRunner(items, i);
      if leg.Err? {
        StopsAt(rs, ps, i, legs, written, items[..]);
        return Err(leg.error);
      }
      ConvertedOneMore(rs, ps, legs, written, leg.value);
      legs := legs + [leg.value];
      written := written + [x];
      i := i + 1;
    }
    RunsOut(rs, ps, legs, written, items[..]);
    r := Ok(legs);
  }

  /** The first |legs| runners converted to `legs` and were written back as `written`. */
  ghost predicate ConvertedPrefix(rs: seq<Runner>, ps: seq<Prices>, legs: seq<Leg>, written: seq<Runner>) {
    |ps| == |rs| && |legs| == |written| <= |rs| &&
    forall k :: 0 <= k < |legs| ==> RunnerLeg(rs[k], ps[k]) == Ok(legs[k]) && written[k] == Rewrite(rs[k], ps[k])
  }

  lemma ConvertedOneMore(rs: seq<Runner>, ps: seq<Prices>, legs: seq<Leg>, written: seq<Runner>, leg: Leg)
    requires ConvertedPrefix(rs, ps, legs, written) && |legs| < |rs|
    requires RunnerLeg(rs[|legs|], ps[|legs|]) == Ok(leg)
    ensures ConvertedPrefix(rs, ps, legs + [leg], written + [Rewrite(rs[|legs|], ps[|legs|])])
  {
  }

  /** The normalisation loop stopping at runner `i`, the first that does not convert. */
  lemma StopsAt(rs: seq<Runner>, ps: seq<Prices>, i: nat, legs: seq<Leg>, written: seq<Runner>, now: seq<Runner>)
    requires ps == PricesOf(rs) && i < |rs| && |legs| == i
    requires ConvertedPrefix(rs, ps, legs, written)
    requires RunnerLeg(rs[i], ps[i]).Err?
    requires now == written + [Rewrite(rs[i], ps[i])] + rs[i + 1..]
    ensures NormaliseRunners(rs) == Err(RunnerLeg(rs[i], ps[i]).error)
    ensures Normalised(rs) == now
  {
    ConvertedLegs(rs, ps, i, legs);
    ConvertedRunners(rs, ps, i, written);
  }

  /** The normalisation loop converting every runner. */
  lemma RunsOut(rs: seq<Runner>, ps: seq<Prices>, legs: seq<Leg>, written: seq<Runner>, now: seq<Runner>)
    requires ps == PricesOf(rs) && |legs| == |rs|
    requires ConvertedPrefix(rs, ps, legs, written)
    requires now == written + rs[|rs|..]
    ensures NormaliseRunners(rs) == Ok(legs)
    ensures Normalised(rs) == now
  {
    ConvertedLegs(rs, ps, |rs|, legs);
    assert NormaliseFrom(rs, ps, |rs|) == Ok([]);
    assert legs + [] == legs;
    ConvertedRunners(rs, ps, |rs|, written);
    assert NormalisedFrom(rs, ps, |rs|) == [] && rs[|rs|..] == [];
    assert written + [] == written;
  }

  /**
   * The module-level state of betcruncher.js: the running totals and the
   * per-depth amounts of the combination being visited.
   */
  class Cruncher {
    var totalStake: real
    var winAmount: real
    var amounts: seq<real>
    var eachWayAmounts: seq<real>

    constructor ()
      ensures totalStake == 0.0 && winAmount == 0.0 && amounts == [] && eachWayAmounts == []
    {
      totalStake, winAmount := 0.0, 0.0;
      amounts, eachWayAmounts := [], [];
    }

    /**
     * doRound: settle `runner` on top of the amounts one level up, store
     * the results at depth `num`, and add stake and returns when the
     * combination size is staked.
     */
    method DoRound(stake: real, bt: BetType, num: nat, isEachWay: bool, runner: Leg)
      requires 1 <= num <= |amounts|
      requires isEachWay ==> num <= |eachWayAmounts|
      modifies this
      ensures amounts == Store(old(amounts), num, DoSingle(old(amounts)[num - 1], runner.odds, runner.position))
      ensures eachWayAmounts ==
        if isEachWay then Store(old(eachWayAmounts), num, DoEachWay(old(eachWayAmounts)[num - 1], runner.odds, runner.terms, runner.position))
        else old(eachWayAmounts)
      ensures Totals(totalStake, winAmount) ==
        Totals(old(totalStake), old(winAmount)).Plus(RoundGain(AsWritten, bt, stake, num, isEachWay, amounts[num], At(eachWayAmounts, num + 1)))
    {
      amounts := Store(amounts, num, DoSingle(amounts[num - 1], runner.odds, runner.position));
      if isEachWay {
        eachWayAmounts := Store(eachWayAmounts, num, DoEachWay(eachWayAmounts[num - 1], runner.odds, runner.terms, runner.position));
      }
      var shouldDoAccumulator := ShouldDoAccumulator(bt, num);
      if shouldDoAccumulator {
        totalStake := totalStake + stake;
        winAmount := winAmount + amounts[num];
        if isEachWay {
          totalStake := totalStake + stake;
          winAmount := winAmount + eachWayAmounts[num];
        }
      }
    }

    /**
     * The loop at depth `num` (1 to 8) of calculator's nested loops, from
     * index `start`.
     */
    method Enumerate(legs: seq<Leg>, bt: BetType, stake: real, isEachWay: bool, start: nat, num: nat)
      requires 1 <= num <= 8 && num <= |amounts|
      requires isEachWay ==> num <= |eachWayAmounts|
      modifies this
      ensures |amounts| >= num && amounts[..num] == old(amounts)[..num]
      ensures isEachWay ==> |eachWayAmounts| >= num && eachWayAmounts[..num] == old(eachWayAmounts)[..num]
      ensures !isEachWay ==> eachWayAmounts == old(eachWayAmounts)
      ensures Totals(totalStake, winAmount) ==
        Totals(old(totalStake), old(winAmount)).Plus(
          Sweep(AsWritten, legs, bt, stake, isEachWay, start, num, old(amounts)[num - 1], At(old(eachWayAmounts), num)))
      decreases |legs| - start, 1
    {
      ghost var win, ew := amounts[num - 1], At(eachWayAmounts, num);
      ghost var before := Totals(totalStake, winAmount);
      var i := start;
      while i < |legs|
        invariant start <= i
        invariant |amounts| >= num && amounts[..num] == old(amounts)[..num]
        invariant isEachWay ==> |eachWayAmounts| >= num && eachWayAmounts[..num] == old(eachWayAmounts)[..num]
        invariant !isEachWay ==> eachWayAmounts == old(eachWayAmounts)
        invariant Totals(totalStake, winAmount).Plus(Sweep(AsWritten, legs, bt, stake, isEachWay, i, num, win, ew)) ==
          before.Plus(Sweep(AsWritten, legs, bt, stake, isEachWay, start, num, win, ew))
        decreases |legs| - i
      {
        assert amounts[num - 1] == old(amounts)[..num][num - 1];
        assert isEachWay ==> eachWayAmounts[num - 1] == old(eachWayAmounts)[..num][num - 1];
        ghost var mid := Totals(totalStake, winAmount);
        ghost var a0, e0 := amounts, eachWayAmounts;
        Step(legs, bt, stake, isEachWay, i, num);
        ShorterPrefix(amounts, a0, num, num);
        ghost var visit := Visit(AsWritten, legs, bt, stake, isEachWay, i, num, win, ew);
        ghost var rest := Sweep(AsWritten, legs, bt, stake, isEachWay, i + 1, num, win, ew);
        assert Totals(totalStake, winAmount) == mid.Plus(visit);
        assert Sweep(AsWritten, legs, bt, stake, isEachWay, i, num, win, ew) == visit.Plus(rest);
        Regroup(mid, visit, rest);
        i := i + 1;
      }
    }

    /** One iteration of the loop at depth `num`: a doRound at index `i`, then the loop one level deeper. */
    method Step(legs: seq<Leg>, bt: BetType, stake: real, isEachWay: bool, i: nat, num: nat)
      requires i < |legs|
      requires 1 <= num <= 8 && num <= |amounts|
      requires isEachWay ==> num <= |eachWayAmounts|
      modifies this
      ensures |amounts| >= num && amounts[..num] == old(amounts)[..num]
      ensures isEachWay ==> |eachWayAmounts| >= num && eachWayAmounts[..num] == old(eachWayAmounts)[..num]
      ensures !isEachWay ==> eachWayAmounts == old(eachWayAmounts)
      ensures Totals(totalStake, winAmount) ==
        Totals(old(totalStake), old(winAmount)).Plus(
          Visit(AsWritten, legs, bt, stake, isEachWay, i, num, old(amounts)[num - 1], At(old(eachWayAmounts), num)))
      decreases |legs| - i, 0
    {
      ghost var win, ew := amounts[num - 1], At(eachWayAmounts, num);
      var leg := legs[i];
      ghost var amount := DoSingle(win, leg.odds, leg.position);
      ghost var eachWayAmount := if isEachWay then DoEachWay(ew, leg.odds, leg.terms, leg.position) else ew;
      ghost var gain := RoundGain(AsWritten, bt, stake, num, isEachWay, amount, eachWayAmount);
      ghost var mid := Totals(totalStake, winAmount);
      ghost var a0, e0 := amounts, eachWayAmounts;
      DoRound(stake, bt, num, isEachWay, leg);
      StoreKeepsPrefix(a0, num, amount, num);
      assert amounts[num] == amount;
      if isEachWay {
        StoreKeepsPrefix(e0, num, eachWayAmount, num);
        assert At(eachWayAmounts, num + 1) == eachWayAmount;
      }
      assert RoundGain(AsWritten, bt, stake, num, isEachWay, amounts[num], At(eachWayAmounts, num + 1)) == gain;
      assert Totals(totalStake, winAmount) == mid.Plus(gain);
      ghost var deeper := NoTotals;
      if num < 8 {
        ghost var a1, e1 := amounts, eachWayAmounts;
        Enumerate(legs, bt, stake, isEachWay, i + 1, num + 1);
        ShorterPrefix(amounts, a1, num + 1, num);
        if isEachWay {
          ShorterPrefix(eachWayAmounts, e1, num + 1, num);
        } else {
          SweepIgnoresEachWay(AsWritten, legs, bt, stake, i + 1, num + 1, amount, At(e1, num + 1), eachWayAmount);
        }
        deeper := Sweep(AsWritten, legs, bt, stake, isEachWay, i + 1, num + 1, amount, eachWayAmount);
        assert Totals(totalStake, winAmount) == mid.Plus(gain).Plus(deeper);
      }
      assert Visit(AsWritten, legs, bt, stake, isEachWay, i, num, win, ew) == gain.Plus(deeper);
      Regroup(mid, gain, deeper);
    }

    /** calculator after the betslip checks: the runner checks, then Run. */
    method Settle(t: Ticket, runners: RunnersArg) returns (r: Result<Settlement, CalcError>)
      modifies this, RunnersFrame(runners)
      ensures r == SettleRunners(AsWritten, t, old(RunnersOf(runners)))
      ensures runners.List? ==>
        runners.items[..] == if Reaches(t, old(RunnersOf(runners))) then Normalised(old(runners.items[..])) else old(runners.items[..])
      ensures match old(Enumerated(t, RunnersOf(runners)))
        case Some(legs) =>
          Totals(totalStake, winAmount) == SettleLegs(AsWritten, legs, t.bt, t.stake, t.isEachWay) &&
          |amounts| >= 1 && amounts[0] == t.stake && |eachWayAmounts| >= 1 && eachWayAmounts[0] == t.stake
        case None =>
          totalStake == old(totalStake) && winAmount == old(winAmount) &&
          amounts == old(amounts) && eachWayAmounts == old(eachWayAmounts)
    {
      if runners.Absent? {
        return Ok(NullResult);
      }
      if runners.NotAList? {
        return Err(NotAnArrayOfRunners);
      }
      var items := runners.items;
      ghost var rs := items[..];
      assert RunnersOf(runners) == RunnerList(rs);
      if t.bt.selections != items.Length {
        return Err(WrongNumberOfRunners(t.bt.selections, items.Length));
      }
      r := Run(t, items);
    }

    /**
     * The rest of calculator once the right number of runners is given:
     * the normalisation in place, the reset of the running state, the
     * enumeration and the rounding.
     */
    method Run(t: Ticket, items: array<Runner>) returns (r: Result<Settlement, CalcError>)
      requires t.bt.selections == items.Length
      modifies this, items
      ensures items[..] == Normalised(old(items[..]))
      ensures match NormaliseRunners(old(items[..]))
        case Err(e) =>
          r == Err(BadPrice(e)) &&
          totalStake == old(totalStake) && winAmount == old(winAmount) &&
          amounts == old(amounts) && eachWayAmounts == old(eachWayAmounts)
        case Ok(legs) =>
          r == Ok(Rounded(SettleLegs(AsWritten, legs, t.bt, t.stake, t.isEachWay))) &&
          Totals(totalStake, winAmount) == SettleLegs(AsWritten, legs, t.bt, t.stake, t.isEachWay) &&
          |amounts| >= 1 && amounts[0] == t.stake && |eachWayAmounts| >= 1 && eachWayAmounts[0] == t.stake
    {
      // convert all the runners to decimal odds, in place
      var normalised := NormaliseInPlace(items);
      if normalised.Err? {
        return Err(BadPrice(normalised.error));
      }
      var legs := normalised.value;

      // reset previous values
      totalStake := 0.0;
      winAmount := 0.0;
      amounts := [t.stake];
      eachWayAmounts := [t.stake];

      Enumerate(legs, t.bt, t.stake, t.isEachWay, 0, 1);
      assert amounts[0] == amounts[..1][0] && eachWayAmounts[0] == eachWayAmounts[..1][0];
      // round the stake, the returns and the profit to cents
      r := Ok(Rounded(Totals(totalStake, winAmount)));
    }

    /**
     * calculator(betslip, runners): the betslip checks (the type is
     * written back lower-cased before it is looked up), then Settle.
     */
    method Calculate(betslip: BetSlip?, runners: RunnersArg) returns (r: Result<Settlement, CalcError>)
      modifies this, betslip, RunnersFrame(runners)
      ensures r == Calculation(AsWritten, old(SlipValue(betslip)), old(RunnersOf(runners)))
      ensures betslip != null ==> betslip.stake == old(betslip.stake) && betslip.eachWay == old(betslip.eachWay)
      ensures betslip != null ==>
        betslip.betType ==
          if old(betslip.stake).Amount? && old(betslip.stake).value != 0.0 then Lower(old(betslip.betType)) else old(betslip.betType)
      ensures runners.List? ==>
        runners.items[..] ==
          match old(SlipChecks(SlipValue(betslip)))
          case Ok(Some(t)) => if Reaches(t, old(RunnersOf(runners))) then Normalised(old(runners.items[..])) else old(runners.items[..])
          case _ => old(runners.items[..])
      ensures match old(Entered(SlipValue(betslip), RunnersOf(runners)))
        case Some((t, legs)) =>
          Totals(totalStake, winAmount) == SettleLegs(AsWritten, legs, t.bt, t.stake, t.isEachWay) &&
          |amounts| >= 1 && amounts[0] == t.stake && |eachWayAmounts| >= 1 && eachWayAmounts[0] == t.stake
        case None =>
          totalStake == old(totalStake) && winAmount == old(winAmount) &&
          amounts == old(amounts) && eachWayAmounts == old(eachWayAmounts)
    {
      if betslip == null {
        return Err(NoBetslip);
      }
      if betslip.stake.NotANumber? {
        return Err(StakeNotANumber);
      }
      var stake := betslip.stake.value;
      if stake == 0.0 {
        return Ok(NullResult);
      }
      betslip.betType := Lower(betslip.betType);
      if betslip.betType !in BetTypes {
        return Err(UnrecognisedBetType(betslip.betType));
      }
      var ticket := Ticket(BetTypes[betslip.betType], stake, betslip.eachWay);
      r := Settle(ticket, runners);
    }
  }
}
