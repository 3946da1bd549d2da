# betcruncher in Dafny

A model of the two modules of the `betcruncher` library together with proofs
about them.

- **The odds converter** (`lib/oddsconverter.js`) takes a price written in one of three notations:
  - a fraction ("10/1", "5-1", "5:1");
  - an American moneyline ("+800", "-400");
  - a decimal price (6, "1.25").

  It detects the notation and returns the price in all three. A decimal
  price becomes a fraction by scaling it by 10^8 and reducing the result
  with Euclid's algorithm.
- **The settlement engine** (`lib/betcruncher.js`) takes a betslip and the settled runners:
  - the betslip holds a stake, one of twenty bet types, and an each-way flag;
  - each runner has a price, place terms and a finishing position.

  It converts every runner's price and terms to decimal, in place. It then
  visits every combination of runners in index order through nested loops
  up to eight deep. Each combination is settled leg by leg on top of the one
  before. The combinations the bet type stakes are added to a running total
  stake and total return. Finally it reports the stake, the returns and the
  profit, rounded to cents.

The model takes each part of the source in its own form:

- **Pure helpers become functions:**
  - `round`, `doSingle` and `doEachWay`;
  - the format detection and the single-price conversions.
- **Loops become methods, each proved against a specification function:**
  - `greatestCommonFactor` and `decimalToFractional` are methods with `while` loops;
  - `convert` is a method that fills the record;
  - the normalisation loop rewrites an `array` of runners in place;
  - the eight nested loops are the mutually recursive methods `Cruncher.Enumerate` and `Cruncher.Step`. Each depth is a `while` loop.
- **The module-level state becomes a class.** `totalStake`, `winAmount`, `amounts` and `eachWayAmounts` are the fields of the class `Cruncher`. `DoRound` and `Calculate` update these fields.

Prices, stakes and money are exact `real` numbers.

The engine's staking test has a defect (see Findings). The settlement
functions take a `Guard`:
- `AsWritten` is the test exactly as the code writes it. This is what `calculator` computes and what the class `Cruncher` runs.
- `Corrected` is the rule the bet types mean.

Lemmas that hold under both tests are stated for either guard. Bet counts and worked examples are stated for each guard separately.

The modules:

| module | what it holds |
|---|---|
| `Wrappers` | `Option` and `Result` |
| `Numerals` | digit strings and ASCII lower-casing |
| `Divisibility` | divisors and the greatest common divisor |
| `OddsConverter` | the converter |
| `OddsConverterProps` | lemmas about the converter |
| `ConverterExamples` | the converter's documented cases |
| `BetCruncher` | the engine and the class `Cruncher` |
| `BetCruncherProps` | lemmas about the engine |
| `Combinations` | what a whole bet pays, as a sum over its combinations |
| `CalculatorExamples` | the engine's documented cases |

## Model

| member | source | states |
|---|---|---|
| OddsConverter.WhichFormatIs | lib/oddsconverter.js:131-150 | fractional first, then a leading sign, then a plain number; anything else is not a price (FractionalTextShape, FormatsDisjoint, DashFractionIsFractional state it) |
| OddsConverter.FormatFractional | lib/oddsconverter.js:24-37 | the numerator and denominator unchanged, printed with "/", and an error for a zero denominator (SeparatorNormalised, FractionalConversion, ShowFractionRoundTrip) |
| OddsConverter.FractionalToDecimal | lib/oddsconverter.js:40-54 | 1 + n/d, and an error for a zero denominator (FractionalConversion) |
| OddsConverter.FormatAmerican | lib/oddsconverter.js:19-21 | the input's sign and whole magnitude (AmericanFieldRoundTrip, AmericanTextTruncates, ShowMoneylineRoundTrip) |
| OddsConverter.DecimalToAmerican | lib/oddsconverter.js:90-97 | "+" and round(100(x − 1)) from 2 up; round(100 / (1 − x)) below 2 (MoneylineSide, ShortOddsBound, PositiveLineRoundTrip, NegativeLineRoundTrip) |
| OddsConverter.JsRemainder | lib/oddsconverter.js:10 | JavaScript's `%` on integers: the remainder is smaller in magnitude than the divisor and takes the sign of the dividend |
| OddsConverter.RemainderKeepsDivisors | lib/oddsconverter.js:9-12 | replacing `(a, b)` by `(b, a % b)` keeps exactly the same common divisors |
| OddsConverter.GreatestCommonFactor | lib/oddsconverter.js:5-16 | the Euclid loop terminates on all integers and returns their greatest common divisor, non-negative (the absolute value of `a` once `b` is 0) |
| OddsConverter.ReductionStep | lib/oddsconverter.js:119-124 | one pass of the reduction loop: dividing both parts by their gcd leaves a coprime pair with a smaller denominator, and the same ratio |
| OddsConverter.DecimalToFractional | lib/oddsconverter.js:100-128 | the loop's result is `FractionOf(x)`: an error at or below 1; otherwise round((x − 1)·10^8) over 10^8 in lowest terms (see FractionOfReduced) |
| OddsConverter.AmericanToDecimal | lib/oddsconverter.js:57-87 | only a sign followed by a number is accepted; an accepted "+" price is at least 2 and an accepted "−" price lies strictly between 1 and 2 |
| OddsConverter.ShortOddsBound | lib/oddsconverter.js:91-92 | below evens, round(100 / (1 − x)) is at most −100 |
| OddsConverter.ToDecimalIsConvertDecimal | lib/oddsconverter.js:161-192 | the engine's decimal price fails exactly when `convert` throws, with the same error, and otherwise is `convert(odds).decimal` |
| OddsConverter.Convert | lib/oddsconverter.js:161-192 | the switch fills the record exactly as `ConvertSpec` defines it (its fields are characterised by ConvertedFields, FractionalConversion and AmericanFieldRoundTrip) |
| OddsConverterProps.FractionalTextShape | lib/oddsconverter.js:134 | the fractional test holds iff the text splits into digits, one of `/ - :`, and digits |
| OddsConverterProps.FormatsDisjoint | lib/oddsconverter.js:131-150 | a signed text is never fractional, and a fractional text is never a plain numeral |
| OddsConverterProps.DashFractionIsFractional | lib/oddsconverter.js:131-146 | "5-1" is detected as fractional because that test runs first; "-5" and −400 are American; 6 is decimal |
| OddsConverterProps.SeparatorNormalised | lib/oddsconverter.js:24-37 | whatever the separator, the fractional field is the same numerator and denominator (printed with "/") |
| OddsConverterProps.FractionalConversion | lib/oddsconverter.js:170-173 | a fraction converts iff its denominator is positive, and then gives decimal 1 + n/d with the fractional field keeping n and d unreduced |
| OddsConverterProps.PositiveMoneyline | lib/oddsconverter.js:64-72 | "+N" is accepted iff N ≥ 100, and is then (N + 100) / 100 |
| OddsConverterProps.NegativeMoneyline | lib/oddsconverter.js:74-84 | "−N" is accepted iff N > 100, and is then (N + 100) / N |
| OddsConverterProps.AmericanNeedsNumber | lib/oddsconverter.js:64-86 | a text with a sign but no number after it is refused as an invalid price |
| OddsConverterProps.AmericanTextTruncates | lib/oddsconverter.js:57-87 | a signed text is read by `parseInt`: the magnitude is the number after the sign rounded down, with the sign kept |
| OddsConverterProps.PositiveLineRoundTrip | lib/oddsconverter.js:64-97 | the decimal of "+N" converts back to "+N" |
| OddsConverterProps.NegativeLineRoundTrip | lib/oddsconverter.js:74-97 | the decimal of "−N" converts back to "−N" |
| OddsConverterProps.AmericanFieldRoundTrip | lib/oddsconverter.js:176-180 | for American input the American field is the input's sign and whole magnitude, and equals what the decimal converts back to |
| OddsConverterProps.MoneylineSide | lib/oddsconverter.js:90-97 | above 1, the sign says which side of 2 the price lies on, and the magnitude is at least 100 |
| OddsConverterProps.FractionOfReduced | lib/oddsconverter.js:100-128 | decimalToFractional fails iff x ≤ 1; otherwise n/d is in lowest terms and n·10^8 = round((x − 1)·10^8)·d |
| OddsConverterProps.FractionOfApproximates | lib/oddsconverter.js:115-127 | 1 + n/d lies within half of 10^-8 of the decimal price |
| OddsConverterProps.FractionOfExact | lib/oddsconverter.js:115-127 | a price that is a whole number of 10^-8 steps above 1 converts to a fraction and back exactly |
| OddsConverterProps.ConvertedFields | lib/oddsconverter.js:161-192 | every successful conversion: the format is the detected one; the decimal is at least 1 (above 1 unless fractional); the American field is "INaN" exactly at 1 and otherwise has the sign of the side of 2; a derived fraction is in lowest terms |
| OddsConverterProps.ShowFractionRoundTrip | lib/oddsconverter.js:24-37 | a printed fraction is detected as fractional and reads back as the same fraction |
| OddsConverterProps.ShowMoneylineRoundTrip | lib/oddsconverter.js:19-21 | a printed moneyline is detected as American and reads back with the same sign and magnitude |
| ConverterExamples.TenToOne | test/index.js:13-18 | "10/1" gives fractional 10/1, decimal 11, American +1000 |
| ConverterExamples.Six | test/index.js:42-47 | 6 gives decimal 6, 5/1, +500 |
| ConverterExamples.OneAndAHalf | test/index.js:56-61 | 1.5 gives 1/2 and −200 |
| ConverterExamples.ThreeAndAHalfText | test/index.js:70-75 | "3.5" gives 5/2 and +250 |
| ConverterExamples.OneAndAQuarterText | test/index.js:84-89 | "1.25" gives 1/4 and −400 |
| ConverterExamples.PlusEightHundred | test/index.js:110-115 | "+800" gives American, 8/1, 9, +800 |
| ConverterExamples.QuarterFraction | test/index.js:84-87 | 1.25 reduces to 1/4 |
| ConverterExamples.MinusFourHundred | test/index.js:124-129 | "−400" gives American, 1/4, 1.25, −400 |
| ConverterExamples.MinusFourHundredNumber | test/index.js:138-143 | the number −400 gives the same as "−400" |
| ConverterExamples.BogusFractions | test/index.js:27-32 | "a/f", "10/" and "/" are not recognised as a format |
| ConverterExamples.ZeroOverZero | test/index.js:33 | "0/0" is an invalid price |
| ConverterExamples.BogusDecimals | test/index.js:98-99 | "..3" and "3.." are not recognised as a format |
| ConverterExamples.BogusNumbers | test/index.js:100-101 | the numbers 1 and 0.1 are invalid prices |
| ConverterExamples.BogusAmericans | test/index.js:152-153 | "+10B" and "−XYZ" are invalid prices |
| BetCruncher.RoundToCents | lib/betcruncher.js:51-53 | to the nearest cent, halves upwards (RoundToCentsError, ProfitWithinACent) |
| BetCruncher.DoSingle | lib/betcruncher.js:56-70 | a winner pays stake × price, a void leg returns the stake, anything else 0 (PlacePartPaysPlacedRunners, LegsScale) |
| BetCruncher.DoEachWay | lib/betcruncher.js:73-91 | a placed runner pays the stake plus (price − 1)(terms − 1) × stake, a void leg the stake, anything else 0 (PlacePartPaysPlacedRunners, LegsScale) |
| BetCruncher.ShouldDoAccumulator | lib/betcruncher.js:104-105 | the staking test as written; it admits a full cover's singles (TrixieSinglesAdmitted, StakingRulesDiffer, AsWrittenCoverIsWithSingles) |
| BetCruncher.Staked | lib/betcruncher.js:104-105 | the Finding's corrected rule: singles only for types that include them (TrixieSinglesAdmitted, StakingRulesDiffer) |
| BetCruncher.SweepIgnoresEachWay | lib/betcruncher.js:99-114 | without each way, the place amounts never affect the sums |
| BetCruncher.DecimalOf | lib/betcruncher.js:179-180 | `convert(odds).decimal`, or convert's error, is the engine's `ToDecimal` |
| BetCruncher.ConvertRunner | lib/betcruncher.js:178-182 | one pass of the normalisation loop: the runner's leg or the first failing conversion's error; only that runner changes, rewritten as far as conversion got |
| BetCruncher.NormaliseInPlace | lib/betcruncher.js:176-182 | the loop's legs, or the error, are `NormaliseRunners` of the input; the array is left as `Normalised` describes (see NormaliseRunnersMeaning and NormalisedRunners) |
| BetCruncher.Cruncher.DoRound | lib/betcruncher.js:93-116 | `amounts[num]` becomes the leg settled on `amounts[num − 1]`, and `eachWayAmounts` likewise when each way; the totals grow by the gain when the staking test as written (`ShouldDoAccumulator`) admits size `num` |
| BetCruncher.Cruncher.Step | lib/betcruncher.js:191-213 | one iteration at depth `num` adds exactly the `Visit` of that index under the guard as written; shallower amounts are kept |
| BetCruncher.Cruncher.Enumerate | lib/betcruncher.js:190-214 | the loop at depth `num` adds exactly the `Sweep` of the remaining indices under the guard as written; shallower amounts are kept |
| BetCruncher.Cruncher.Settle | lib/betcruncher.js:156-221 | the runner checks, then Run: the result is `SettleRunners`; the runners are rewritten only once the count is right; the totals are `SettleLegs` of the legs under the guard as written when the enumeration is reached, and untouched otherwise |
| BetCruncher.Cruncher.Run | lib/betcruncher.js:176-221 | the array ends as `Normalised`; on a bad price the error and untouched totals; otherwise the totals are reset and become `SettleLegs` of the legs under the guard as written, and the result is their rounding |
| BetCruncher.Cruncher.Calculate | lib/betcruncher.js:127-222 | the result is `Calculation` under the guard as written; the type is written back lower-cased once the stake is non-zero; the runners and the running totals end as Settle describes |
| BetCruncherProps.TrixieSinglesAdmitted | lib/betcruncher.js:104-105 | the guard as written admits a trixie's singles, whereas the corrected rule excludes them |
| BetCruncherProps.StakingRulesDiffer | lib/betcruncher.js:104-105 | the written and corrected guards disagree exactly on full covers without singles, when one of the size and the selection count is 1 |
| BetCruncherProps.AsWrittenCoverIsWithSingles | lib/betcruncher.js:104-114 | as written, a full cover settles exactly like its variant with singles under the corrected rule: a trixie as a patent, a goliath as a lucky255 |
| BetCruncherProps.CatalogueShape | lib/betcruncher.js:13-42 | every type takes 1 to 8 selections; full covers take at least 3; singles only with full covers or the single |
| BetCruncherProps.LegsScale | lib/betcruncher.js:57-91 | a leg's return is proportional to what rides on it |
| BetCruncherProps.PlacePartPaysPlacedRunners | lib/betcruncher.js:57-91 | the place part pays at least the stake for any position above 0, the winner included; the win part pays stake × price only for the winner |
| BetCruncherProps.NothingBeyond | lib/betcruncher.js:104-105 | a straight type stakes nothing beyond its size |
| BetCruncherProps.TooFewLegs | lib/betcruncher.js:104-214 | a straight type stakes nothing when too few legs remain to complete a combination |
| BetCruncherProps.StraightStakeCount | lib/betcruncher.js:104-214 | a straight type stakes one bet per combination of its size: C(remaining, missing) |
| BetCruncherProps.CoverStakeCount | lib/betcruncher.js:104-214 | when the guard admits every size from `num` on (as written, every full cover; corrected, those with singles), a full cover stakes one bet per non-empty choice among the remaining legs, 2^r − 1 |
| BetCruncherProps.CoverWithoutSinglesStakeCount | lib/betcruncher.js:104-214 | under the Finding's corrected rule, a full cover without singles stakes every combination of two or more legs, 2^r − 1 − r |
| BetCruncherProps.LaidIsProduct | lib/betcruncher.js:108-114 | the stake laid one bet at a time is stake × bets, doubled each way |
| BetCruncherProps.TotalStake | lib/betcruncher.js:104-214 | as written, on as many legs as its type takes, the total stake is the stake once per bet (doubled each way): 1 bet for a straight type, 2^n − 1 for every full cover |
| BetCruncherProps.CatalogueBetCounts | lib/betcruncher.js:13-42 | bets per type as written: double 1, trixie 7, yankee 15, superyankee 31, heinz 63, superheinz 127, goliath 255, patent 7, lucky15 15, lucky63 63, lucky255 255 |
| BetCruncherProps.IntendedTotalStake | lib/betcruncher.js:104-214 | under the Finding's corrected rule, the total stake is the stake once per bet the type means: 1, 2^n − 1 with singles, 2^n − 1 − n without |
| BetCruncherProps.IntendedBetCounts | lib/betcruncher.js:13-42 | bets per type under the Finding's corrected rule: trixie 4, yankee 11, superyankee 26, heinz 57, superheinz 120, goliath 247, patent 7, lucky255 255 |
| BetCruncherProps.StraightRollsOver | lib/betcruncher.js:98-114 | with exactly the legs needed, a straight type's one bet rolls the stake over every leg, win and place parts alike |
| BetCruncherProps.StraightBet | lib/betcruncher.js:98-214 | a single, double, …, eightfold settles as one accumulator: stake (doubled each way) and rolled returns |
| BetCruncherProps.AllLosersReturnNothing | lib/betcruncher.js:57-100 | when every leg loses, nothing is returned |
| BetCruncherProps.NothingRiding | lib/betcruncher.js:98-100 | once nothing rides on a combination, none of its extensions returns anything |
| BetCruncherProps.LoserPaysNothing | lib/betcruncher.js:57-100 | a losing leg zeroes every combination that contains it |
| BetCruncherProps.AllVoidReturnsStake | lib/betcruncher.js:57-100 | when every leg is void, the returns equal the total stake |
| Combinations.AllCombinationsExactlyOnce | lib/betcruncher.js:189-213 | the nested loops visit exactly the strictly increasing index sequences of one to eight legs, each once |
| Combinations.SweepSumsCombos | lib/betcruncher.js:189-213 | the loop at depth `num` adds, for each combination it and the loops below visit, what the staking test adds for it settled on the enclosing combination |
| Combinations.WinAlongIsProduct | lib/betcruncher.js:98 | the win amount after a combination's legs is the stake times the product of their `doSingle` returns |
| Combinations.PlaceAlongIsProduct | lib/betcruncher.js:99-101 | each way, the place amount after a combination's legs is the stake times the product of their `doEachWay` returns |
| Combinations.SettlesEveryCombination | lib/betcruncher.js:93-214 | a whole bet lays and returns the sum, over every combination, of the stake (doubled each way) and stake × the product of its legs' returns, for each combination the staking test admits |
| BetCruncherProps.RoundToCentsError | lib/betcruncher.js:52-54 | rounding lands within half a cent and keeps whole cents |
| BetCruncherProps.ProfitWithinACent | lib/betcruncher.js:217-221 | the profit, rounded from the unrounded sums, differs from the rounded returns less the rounded stake by at most a cent |
| BetCruncherProps.ChecksInOrder | lib/betcruncher.js:131-164 | missing betslip, then the stake (0 returns {0,0,0} whatever follows), then the type, then absent runners ({0,0,0}) and a non-array |
| BetCruncherProps.CalculationSettles | lib/betcruncher.js:166-221 | past the checks, the result is the rounding of the settled legs |
| BetCruncherProps.TypeCaseInsensitive | lib/betcruncher.js:148 | the type is matched without regard to case |
| BetCruncherProps.NormaliseRunnersMeaning | lib/betcruncher.js:178-182 | the conversion succeeds iff every runner's price and terms convert, giving one leg per runner in order; otherwise it fails with the first failing runner's error |
| BetCruncherProps.NormalisedRunners | lib/betcruncher.js:178-182 | after a successful normalisation, each runner holds its decimal price and terms as numbers, its position unchanged |
| BetCruncherProps.DecimalNumber | lib/oddsconverter.js:143-186 | a decimal number above 1 converts to itself |
| BetCruncherProps.RecalculationStable | lib/betcruncher.js:176-221 | calling again on the rewritten runners gives the same result, when every converted price and term is above 1 |
| CalculatorExamples.Single | test/index.js:174-186 | single, stake 5, "10/1" winner: 5 staked, 55 returned, 50 profit |
| CalculatorExamples.EachWaySingle | test/index.js:822-835 | each-way single, stake 15, "9/2" at "1/5" placed second: 30, 28.5, −1.5 |
| CalculatorExamples.TrixieWinners | lib/betcruncher.js:93-214 | three 5/1 winners under a trixie pay 324 × stake under the corrected rule, and 342 × stake as written (the three singles add 18 × stake) |
| CalculatorExamples.Trixie | lib/betcruncher.js:127-222 | as calculator computes it, the "Trixie" bet of test/index.js (stake 10, three "5/1" winners) lays 70 and returns 3420, profit 3350 |
| CalculatorExamples.IntendedTrixie | test/index.js:1473-1487 | under the Finding's corrected rule: trixie, stake 10, three "5/1" winners gives 40, 3240, 3200, as the test expects |
| CalculatorExamples.TrixieVoid | lib/betcruncher.js:127-222 | as calculator computes it, the "Trixie Void" bet of test/index.js (stake 10, three void runners) lays 70 and returns 70 |
| CalculatorExamples.IntendedTrixieVoid | test/index.js:1511-1526 | under the Finding's corrected rule: trixie, stake 10, three void runners gives 40, 40, 0, as the test expects |
| CalculatorExamples.EvensTermsSingle | lib/betcruncher.js:178-182 | a "2/1" winner with terms "0/1" settles: 5, 15, 10 |
| CalculatorExamples.RewrittenEvensRefused | lib/betcruncher.js:178-182 | the same runner, once rewritten in place (terms become the number 1), is refused on a second call |

## Left out

- Floating point: all arithmetic is on exact reals, so float artefacts in cent-rounded results are not reproduced. `Math.round` is modelled as `Floor(x + 1/2)`, which rounds halves upwards as JavaScript does; rounding halves away from zero would differ only on negative half-cents.
- Typed inputs instead of JavaScript coercions:
  - A price is either a string or a number. A decimal string is read by a small grammar of digits with an optional point: there is no exponent, no whitespace and no hex.
  - A number is taken as it prints in plain form. Exponent and Infinity forms are not modelled.
  - The stake arrives already parsed: a number or NaN. Its write-back into the betslip is not modelled.
  - The each-way flag arrives as a boolean.
  - The position arrives as an integer, so its `parseInt` is the identity.
  - A missing bet type is the empty string.
- Partial parses: an American text whose tail is not numeric is refused. JavaScript's `parseInt` would accept "-400abc" as −400, and "+.5" produces NaN. A negative number's magnitude is its integer part.
- `Array.isArray` polyfill (lib/betcruncher.js:8-10) and the `require` inside calculator: plumbing. The converter is called directly.
- Error messages: the errors are kinds (`ConvertError`, `CalcError`) without their strings.
- The shared `nullResult` object: a fresh value is returned, so its aliasing between calls is not modelled.
- Lower-casing covers ASCII letters only.
- `greatestCommonFactor` on non-integers: prices are scaled to integers before it is called, so only the integer case is modelled.
- Runner objects: each runner is a value in an `array`, overwritten whole by the loop. Two array slots sharing one runner object are not modelled.
- The accumulators: `amounts` and `eachWayAmounts` are sequences. JavaScript's growth by assignment past the end is the function `Store`.
- The depth bound of eight: it is kept as written. Since every bet type takes at most eight runners, it never cuts a combination short.
- OddsConverter.WhichFormatIs: an empty or blank text is refused as not a price. The code instead classifies it as decimal, since `isNaN("")` is false (lib/oddsconverter.js:144). It then reads it as NaN (lib/oddsconverter.js:109), and `greatestCommonFactor` never ends on NaN (lib/oddsconverter.js:9-13), so the code hangs. A non-terminating call is not modelled.
- BetCruncherProps.RecalculationStable: requires every converted price and term to be above 1. A term of exactly 1 ("0/1") is rewritten as the number 1, which the converter then refuses (CalculatorExamples.RewrittenEvensRefused).
- BetCruncherProps.TotalStake: the stake is stated as `Laid`, repeated addition of the stake per bet. Its equality with the product stake × bets × (2 if each way) is the separate lemma LaidIsProduct.

## Findings

| source | as written | input that shows it | evidently intended | confidence | as-written member | corrected member |
|---|---|---|---|---|---|---|
| lib/betcruncher.js:104-105 | the guard tests `betTypes[type].selections === 1`, the type's selection count, so it never excludes anything; every full cover stakes its singles too | trixie, stake 10, three "5/1" winners: seven bets, laying 70 (test/index.js:1485 expects 40 from four bets) | `num === 1`, the size of the combination, so that only types with singles stake size-1 combinations | high; not executed | BetCruncher.ShouldDoAccumulator, BetCruncherProps.TrixieSinglesAdmitted, BetCruncherProps.TotalStake, CalculatorExamples.Trixie (70, 3420, 3350) | BetCruncher.Staked, BetCruncherProps.IntendedTotalStake, CalculatorExamples.IntendedTrixie (40, 3240, 3200) |
