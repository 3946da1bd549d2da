/**
 * What a whole bet pays, stated without the loops: the nested loops of
 * calculator settle every combination of legs (a strictly increasing
 * sequence of leg indices, one to eight long) exactly once, and the bet's
 * sums are the sums, over those combinations, of what the staking test
 * adds for each, with the stake riding on the product of the returns of
 * the combination's legs.
 */
module Combinations {
  import opened BetCruncher
  import opened BetCruncherProps

  /** The bet being settled: staking test, type, unit stake and whether it is each way. */
  datatype Wager = Wager(g: Guard, bt: BetType, stake: real, isEachWay: bool)

  /** Leg indices in strictly increasing order. */
  predicate Increasing(c: seq<nat>) {
    forall i, j :: 0 <= i < j < |c| ==> c[i] < c[j]
  }

  /** Every index of `c` lies in [lo, n). */
  predicate Within(c: seq<nat>, lo: nat, n: nat) {
    forall k :: 0 <= k < |c| ==> lo <= c[k] < n
  }

  /** Every combination in `cs` indexes legs below `n`. */
  predicate AllWithin(cs: seq<seq<nat>>, n: nat) {
    forall k :: 0 <= k < |cs| ==> Within(cs[k], 0, n)
  }

  /** No combination is listed twice. */
  predicate Distinct(cs: seq<seq<nat>>) {
    forall i, j :: 0 <= i < j < |cs| ==> cs[i] != cs[j]
  }

  // ---------------------------------------------------------------------
  // The combinations, in the order the loops visit them

  /** Leg `i` followed by each combination of `cs`. */
  function Prefixed(i: nat, cs: seq<seq<nat>>): seq<seq<nat>> {
    seq(|cs|, k requires 0 <= k < |cs| => [i] + cs[k])
  }

  /**
   * The combinations the loops visit among `n` legs from leg `start` on,
   * with `room` depths left: each leg from `start` on, first on its own,
   * then followed by every combination of later legs that fits in the
   * depths below it.
   */
  function Combos(start: nat, n: nat, room: nat): seq<seq<nat>>
    decreases n - start
  {
    if start >= n || room == 0 then []
    else [[start]] + Prefixed(start, Combos(start + 1, n, room - 1)) + Combos(start + 1, n, room)
  }

  /** Every combination the eight nested loops visit over `n` legs. */
  function AllCombinations(n: nat): seq<seq<nat>> {
    Combos(0, n, 8)
  }

  lemma ConsCombination(i: nat, d: seq<nat>, lo: nat, n: nat)
    requires lo <= i < n && Increasing(d) && Within(d, i + 1, n)
    ensures Increasing([i] + d) && Within([i] + d, lo, n)
  {
    var c := [i] + d;
    forall p, q | 0 <= p < q < |c|
      ensures c[p] < c[q]
    {
      assert c[q] == d[q - 1];
      if p > 0 {
        assert c[p] == d[p - 1];
      }
    }
  }

  /** Every listed combination is non-empty, fits in the depths left, is increasing and indexes legs from `start` on. */
  lemma {:induction false} CombosShape(start: nat, n: nat, room: nat)
    ensures forall k :: 0 <= k < |Combos(start, n, room)| ==>
      var c := Combos(start, n, room)[k];
      1 <= |c| <= room && Increasing(c) && Within(c, start, n)
    decreases n - start
  {
    if start < n && room > 0 {
      var inner, rest := Combos(start + 1, n, room - 1), Combos(start + 1, n, room);
      CombosShape(start + 1, n, room - 1);
      CombosShape(start + 1, n, room);
      var cs := Combos(start, n, room);
      assert cs == [[start]] + Prefixed(start, inner) + rest;
      forall k | 0 <= k < |cs|
        ensures 1 <= |cs[k]| <= room && Increasing(cs[k]) && Within(cs[k], start, n)
      {
        if k == 0 {
          assert cs[k] == [start];
        } else if k <= |inner| {
          assert cs[k] == [start] + inner[k - 1];
          ConsCombination(start, inner[k - 1], start, n);
        } else {
          assert cs[k] == rest[k - 1 - |inner|];
        }
      }
    }
  }

  /** Every non-empty increasing combination of legs from `start` on that fits in the depths left is listed. */
  lemma {:induction false} CombosComplete(start: nat, n: nat, room: nat, c: seq<nat>)
    requires 1 <= |c| <= room && Increasing(c) && Within(c, start, n)
    ensures c in Combos(start, n, room)
    decreases n - start
  {
    assert start <= c[0] < n;
    var inner, rest := Combos(start + 1, n, room - 1), Combos(start + 1, n, room);
    assert Combos(start, n, room) == [[start]] + Prefixed(start, inner) + rest;
    if c[0] == start {
      if |c| == 1 {
        assert c == [start];
      } else {
        var d := c[1..];
        assert forall k :: 0 <= k < |d| ==> d[k] == c[k + 1];
        assert c[0] < c[1];
        CombosComplete(start + 1, n, room - 1, d);
        var k :| 0 <= k < |inner| && inner[k] == d;
        assert Prefixed(start, inner)[k] == [start] + d == c;
      }
    } else {
      CombosComplete(start + 1, n, room, c);
    }
  }

  lemma DistinctConcat(a: seq<seq<nat>>, b: seq<seq<nat>>)
    requires Distinct(a) && Distinct(b)
    requires forall x, y :: x in a && y in b ==> x != y
    ensures Distinct(a + b)
  {
    var ab := a + b;
    forall i, j | 0 <= i < j < |ab|
      ensures ab[i] != ab[j]
    {
      if j < |a| {
        assert ab[i] == a[i] && ab[j] == a[j];
      } else if i >= |a| {
        assert ab[i] == b[i - |a|] && ab[j] == b[j - |a|];
      } else {
        assert ab[i] == a[i] && ab[j] == b[j - |a|];
        assert a[i] in a && b[j - |a|] in b;
      }
    }
  }

  /** The loops never visit a combination twice. */
  lemma {:induction false} CombosDistinct(start: nat, n: nat, room: nat)
    ensures Distinct(Combos(start, n, room))
    decreases n - start
  {
    if start < n && room > 0 {
      var inner, rest := Combos(start + 1, n, room - 1), Combos(start + 1, n, room);
      CombosDistinct(start + 1, n, room - 1);
      CombosDistinct(start + 1, n, room);
      CombosShape(start + 1, n, room);
      var extended := Prefixed(start, inner);
      forall i, j | 0 <= i < j < |extended|
        ensures extended[i] != extended[j]
      {
        assert extended[i][1..] == inner[i] && extended[j][1..] == inner[j];
      }
      forall x, y | x in [[start]] + extended && y in rest
        ensures x != y
      {
        var k :| 0 <= k < |rest| && rest[k] == y;
        assert y[0] >= start + 1;
        var m :| 0 <= m < |[[start]] + extended| && ([[start]] + extended)[m] == x;
        if m > 0 {
          assert x == [start] + inner[m - 1];
        }
      }
      forall x, y | x in [[start]] && y in extended
        ensures x != y
      {
        var m :| 0 <= m < |extended| && extended[m] == y;
        assert |y| == 1 + |inner[m]|;
        CombosShape(start + 1, n, room - 1);
      }
      DistinctConcat([[start]], extended);
      DistinctConcat([[start]] + extended, rest);
      assert Combos(start, n, room) == [[start]] + extended + rest;
    }
  }

  /**
   * The eight nested loops over `n` legs visit exactly the non-empty
   * increasing combinations of at most eight legs, each once; with at most
   * eight legs that is every non-empty choice of legs.
   */
  lemma AllCombinationsExactlyOnce(n: nat)
    ensures Distinct(AllCombinations(n))
    ensures forall c :: c in AllCombinations(n) <==> 1 <= |c| <= 8 && Increasing(c) && Within(c, 0, n)
  {
    CombosDistinct(0, n, 8);
    CombosShape(0, n, 8);
    forall c | 1 <= |c| <= 8 && Increasing(c) && Within(c, 0, n)
      ensures c in AllCombinations(n)
    {
      CombosComplete(0, n, 8, c);
    }
  }

  // ---------------------------------------------------------------------
  // Settling one combination

  /**
   * What rides on the win part after the legs of `c`, with `win` riding on
   * the first; an index that names no leg is passed over.
   */
  function WinAlong(legs: seq<Leg>, c: seq<nat>, win: real): real
    decreases |c|
  {
    if |c| == 0 then win
    else if c[0] < |legs| then WinAlong(legs, c[1..], WinAfter(legs[c[0]], win))
    else WinAlong(legs, c[1..], win)
  }

  /** What rides on the place part after the legs of `c`, with `ew` riding on the first. */
  function PlaceAlong(legs: seq<Leg>, c: seq<nat>, isEachWay: bool, ew: real): real
    decreases |c|
  {
    if |c| == 0 then ew
    else if c[0] < |legs| then PlaceAlong(legs, c[1..], isEachWay, PlaceAfter(legs[c[0]], isEachWay, ew))
    else PlaceAlong(legs, c[1..], isEachWay, ew)
  }

  /** What the staking test adds for `c` settled on top of a combination of `depth` legs whose amounts are `win` and `ew`. */
  function Gain(w: Wager, legs: seq<Leg>, depth: nat, win: real, ew: real, c: seq<nat>): Totals
  {
    RoundGain(w.g, w.bt, w.stake, depth + |c|, w.isEachWay, WinAlong(legs, c, win), PlaceAlong(legs, c, w.isEachWay, ew))
  }

  /** The gains of the combinations `cs`, in order. */
  function Gains(w: Wager, legs: seq<Leg>, depth: nat, win: real, ew: real, cs: seq<seq<nat>>): seq<Totals>
  {
    seq(|cs|, k requires 0 <= k < |cs| => Gain(w, legs, depth, win, ew, cs[k]))
  }

  /** Running sums of a list of totals, first to last. */
  function Sum(ts: seq<Totals>): Totals
    decreases |ts|
  {
    if |ts| == 0 then NoTotals
    else ts[0].Plus(Sum(ts[1..]))
  }

  /** Summing a list in two parts and adding the parts' sums gives the same sums. */
  lemma {:induction false} SumAppend(a: seq<Totals>, b: seq<Totals>)
    ensures Sum(a + b) == Sum(a).Plus(Sum(b))
    decreases |a|
  {
    if |a| == 0 {
      assert a + b == b;
    } else {
      assert (a + b)[1..] == a[1..] + b;
      SumAppend(a[1..], b);
    }
  }

  /** The gains of two lists of combinations, one after the other, are the gains of each list in turn. */
  lemma GainsAppend(w: Wager, legs: seq<Leg>, depth: nat, win: real, ew: real, a: seq<seq<nat>>, b: seq<seq<nat>>)
    ensures Gains(w, legs, depth, win, ew, a + b) == Gains(w, legs, depth, win, ew, a) + Gains(w, legs, depth, win, ew, b)
  {
    assert forall k :: 0 <= k < |a + b| ==> (a + b)[k] == if k < |a| then a[k] else b[k - |a|];
  }

  /** Settling leg `i` and then `c` is settling `c` one depth down on what leg `i` leaves riding. */
  lemma GainAfter(w: Wager, legs: seq<Leg>, depth: nat, win: real, ew: real, i: nat, c: seq<nat>)
    requires i < |legs|
    ensures Gain(w, legs, depth, win, ew, [i] + c) ==
      Gain(w, legs, depth + 1, WinAfter(legs[i], win), PlaceAfter(legs[i], w.isEachWay, ew), c)
  {
    assert ([i] + c)[1..] == c;
  }

  /** Settling leg `i` first and then each combination of `cs` is settling `cs` one depth down on what leg `i` leaves riding. */
  lemma GainsPrefixed(w: Wager, legs: seq<Leg>, depth: nat, win: real, ew: real, i: nat, cs: seq<seq<nat>>)
    requires i < |legs|
    ensures Gains(w, legs, depth, win, ew, Prefixed(i, cs)) ==
      Gains(w, legs, depth + 1, WinAfter(legs[i], win), PlaceAfter(legs[i], w.isEachWay, ew), cs)
  {
    var a, e := WinAfter(legs[i], win), PlaceAfter(legs[i], w.isEachWay, ew);
    forall k | 0 <= k < |cs|
      ensures Gains(w, legs, depth, win, ew, Prefixed(i, cs))[k] == Gains(w, legs, depth + 1, a, e, cs)[k]
    {
      assert Prefixed(i, cs)[k] == [i] + cs[k];
      GainAfter(w, legs, depth, win, ew, i, cs[k]);
    }
  }

  /** Every listed combination indexes legs below `n`. */
  lemma CombosWithin(start: nat, n: nat, room: nat)
    ensures AllWithin(Combos(start, n, room), n)
  {
    CombosShape(start, n, room);
  }

  /** The sum of one total followed by two lists is the three added in order. */
  lemma SumThree(x: Totals, b: seq<Totals>, c: seq<Totals>)
    ensures Sum([x] + b + c) == x.Plus(Sum(b)).Plus(Sum(c))
  {
    SumAppend([x], b);
    SumAppend([x] + b, c);
    assert Sum([x]) == x.Plus(Sum([]));
  }

  /**
   * The combinations from leg `start` on are `start` alone, `start`
   * followed by each combination of later legs in the depths below, and
   * the combinations from the next leg on.
   */
  lemma GainsCombos(w: Wager, legs: seq<Leg>, depth: nat, win: real, ew: real, start: nat, room: nat)
    requires start < |legs| && room > 0
    ensures Gains(w, legs, depth, win, ew, Combos(start, |legs|, room)) ==
      [Gain(w, legs, depth, win, ew, [start])]
        + Gains(w, legs, depth + 1, WinAfter(legs[start], win), PlaceAfter(legs[start], w.isEachWay, ew), Combos(start + 1, |legs|, room - 1))
        + Gains(w, legs, depth, win, ew, Combos(start + 1, |legs|, room))
  {
    var n := |legs|;
    var inner, rest := Combos(start + 1, n, room - 1), Combos(start + 1, n, room);
    assert Combos(start, n, room) == [[start]] + Prefixed(start, inner) + rest;
    GainsPrefixed(w, legs, depth, win, ew, start, inner);
    GainsAppend(w, legs, depth, win, ew, [[start]], Prefixed(start, inner));
    GainsAppend(w, legs, depth, win, ew, [[start]] + Prefixed(start, inner), rest);
    assert Gains(w, legs, depth, win, ew, [[start]]) == [Gain(w, legs, depth, win, ew, [start])];
  }

  /** The sums over the combinations from leg `start` on, split as GainsCombos splits them (`below` is one depth down, `inner` one depth fewer left). */
  lemma SumCombos(w: Wager, legs: seq<Leg>, depth: nat, below: nat, win: real, ew: real, start: nat, room: nat, inner: nat)
    requires start < |legs| && below == depth + 1 && room == inner + 1
    ensures Sum(Gains(w, legs, depth, win, ew, Combos(start, |legs|, room))) ==
      Gain(w, legs, depth, win, ew, [start])
        .Plus(Sum(Gains(w, legs, below, WinAfter(legs[start], win), PlaceAfter(legs[start], w.isEachWay, ew), Combos(start + 1, |legs|, inner))))
        .Plus(Sum(Gains(w, legs, depth, win, ew, Combos(start + 1, |legs|, room))))
  {
    GainsCombos(w, legs, depth, win, ew, start, room);
    SumThree(Gain(w, legs, depth, win, ew, [start]),
      Gains(w, legs, below, WinAfter(legs[start], win), PlaceAfter(legs[start], w.isEachWay, ew), Combos(start + 1, |legs|, inner)),
      Gains(w, legs, depth, win, ew, Combos(start + 1, |legs|, room)));
  }

  /**
   * The loop at depth `num` from leg `start` on adds, for each combination
   * it and the loops below it visit, what the staking test adds for that
   * combination settled on top of the enclosing one.
   */
  lemma {:induction false} SweepSumsCombos(w: Wager, legs: seq<Leg>, start: nat, num: nat, win: real, ew: real)
    requires 1 <= num <= 8
    ensures Sweep(w.g, legs, w.bt, w.stake, w.isEachWay, start, num, win, ew) ==
      Sum(Gains(w, legs, num - 1, win, ew, Combos(start, |legs|, 9 - num)))
    decreases |legs| - start, 1
  {
    var n := |legs|;
    if start < n {
      DeeperSumsCombos(w, legs, start + 1, num, WinAfter(legs[start], win), PlaceAfter(legs[start], w.isEachWay, ew));
      SweepSumsCombos(w, legs, start + 1, num, win, ew);
      SweepStepSums(w, legs, start, num, win, ew);
    } else {
      assert Combos(start, n, 9 - num) == [];
    }
  }

  /** If the loops below and the rest of the loop add what their combinations add, so does the loop from `start` on. */
  lemma SweepStepSums(w: Wager, legs: seq<Leg>, start: nat, num: nat, win: real, ew: real)
    requires 1 <= num <= 8 && start < |legs|
    requires (if num < 8 then Sweep(w.g, legs, w.bt, w.stake, w.isEachWay, start + 1, num + 1, WinAfter(legs[start], win), PlaceAfter(legs[start], w.isEachWay, ew)) else NoTotals) ==
      Sum(Gains(w, legs, num, WinAfter(legs[start], win), PlaceAfter(legs[start], w.isEachWay, ew), Combos(start + 1, |legs|, 8 - num)))
    requires Sweep(w.g, legs, w.bt, w.stake, w.isEachWay, start + 1, num, win, ew) ==
      Sum(Gains(w, legs, num - 1, win, ew, Combos(start + 1, |legs|, 9 - num)))
    ensures Sweep(w.g, legs, w.bt, w.stake, w.isEachWay, start, num, win, ew) ==
      Sum(Gains(w, legs, num - 1, win, ew, Combos(start, |legs|, 9 - num)))
  {
    SweepStep(w, legs, start, num, win, ew);
    CombosStep(w, legs, start, num, win, ew);
  }

  /** The combinations the iteration at `start` of the loop at depth `num` and the rest of that loop visit, summed in the loop's order. */
  lemma CombosStep(w: Wager, legs: seq<Leg>, start: nat, num: nat, win: real, ew: real)
    requires 1 <= num <= 8 && start < |legs|
    ensures Sum(Gains(w, legs, num - 1, win, ew, Combos(start, |legs|, 9 - num))) ==
      Gain(w, legs, num - 1, win, ew, [start])
        .Plus(Sum(Gains(w, legs, num, WinAfter(legs[start], win), PlaceAfter(legs[start], w.isEachWay, ew), Combos(start + 1, |legs|, 8 - num))))
        .Plus(Sum(Gains(w, legs, num - 1, win, ew, Combos(start + 1, |legs|, 9 - num))))
  {
    SumCombos(w, legs, num - 1, num, win, ew, start, 9 - num, 8 - num);
  }

  /** One iteration of the loop at depth `num`: the leg's own combination, the loops below it, then the rest of the loop. */
  lemma SweepStep(w: Wager, legs: seq<Leg>, start: nat, num: nat, win: real, ew: real)
    requires start < |legs| && 1 <= num
    ensures Sweep(w.g, legs, w.bt, w.stake, w.isEachWay, start, num, win, ew) ==
      Gain(w, legs, num - 1, win, ew, [start])
        .Plus(if num < 8 then Sweep(w.g, legs, w.bt, w.stake, w.isEachWay, start + 1, num + 1, WinAfter(legs[start], win), PlaceAfter(legs[start], w.isEachWay, ew)) else NoTotals)
        .Plus(Sweep(w.g, legs, w.bt, w.stake, w.isEachWay, start + 1, num, win, ew))
  {
    OneLeg(w, legs, num - 1, num, win, ew, start);
  }

  /** Below depth `num` the loops add what the combinations of the depths left add; at depth 8 there are none. */
  lemma {:induction false} DeeperSumsCombos(w: Wager, legs: seq<Leg>, start: nat, num: nat, a: real, e: real)
    requires 1 <= num <= 8
    ensures (if num < 8 then Sweep(w.g, legs, w.bt, w.stake, w.isEachWay, start, num + 1, a, e) else NoTotals) ==
      Sum(Gains(w, legs, num, a, e, Combos(start, |legs|, 8 - num)))
    decreases |legs| - start, 2
  {
    if num < 8 {
      SweepSumsCombos(w, legs, start, num + 1, a, e);
    }
  }

  /** A leg on its own, settled on top of a combination of `depth` legs, adds what doRound adds at depth `depth + 1`. */
  lemma OneLeg(w: Wager, legs: seq<Leg>, depth: nat, size: nat, win: real, ew: real, i: nat)
    requires i < |legs| && size == depth + 1
    ensures Gain(w, legs, depth, win, ew, [i]) ==
      RoundGain(w.g, w.bt, w.stake, size, w.isEachWay, WinAfter(legs[i], win), PlaceAfter(legs[i], w.isEachWay, ew))
  {
    assert [i][1..] == [] && [i][0] == i;
    assert WinAlong(legs, [i], win) == WinAlong(legs, [], WinAfter(legs[i], win));
    assert PlaceAlong(legs, [i], w.isEachWay, ew) == PlaceAlong(legs, [], w.isEachWay, PlaceAfter(legs[i], w.isEachWay, ew));
  }

  // ---------------------------------------------------------------------
  // The whole bet

  /** What one unit staked on the win part of `c` returns: the product of its legs' win returns. */
  function WinFactor(legs: seq<Leg>, c: seq<nat>): real
    decreases |c|
  {
    if |c| == 0 then 1.0
    else if c[0] >= |legs| then WinFactor(legs, c[1..])
    else DoSingle(1.0, legs[c[0]].odds, legs[c[0]].position) * WinFactor(legs, c[1..])
  }

  /** What one unit staked on the place part of `c` returns: the product of its legs' each-way returns. */
  function PlaceFactor(legs: seq<Leg>, c: seq<nat>): real
    decreases |c|
  {
    if |c| == 0 then 1.0
    else if c[0] >= |legs| then PlaceFactor(legs, c[1..])
    else DoEachWay(1.0, legs[c[0]].odds, legs[c[0]].terms, legs[c[0]].position) * PlaceFactor(legs, c[1..])
  }

  /** Rolling an amount over the legs of `c` multiplies it by their win returns. */
  lemma {:induction false} WinAlongIsProduct(legs: seq<Leg>, c: seq<nat>, x: real)
    requires Within(c, 0, |legs|)
    ensures WinAlong(legs, c, x) == x * WinFactor(legs, c)
    decreases |c|
  {
    if |c| > 0 {
      var leg := legs[c[0]];
      var u := DoSingle(1.0, leg.odds, leg.position);
      LegsScale(x, leg.odds, leg.terms, leg.position);
      assert WinAfter(leg, x) == x * u;
      WinAlongIsProduct(legs, c[1..], x * u);
      assert WinAlong(legs, c, x) == WinAlong(legs, c[1..], WinAfter(leg, x));
      assert WinFactor(legs, c) == u * WinFactor(legs, c[1..]);
      assert (x * u) * WinFactor(legs, c[1..]) == x * (u * WinFactor(legs, c[1..]));
    }
  }

  /** Rolling an amount over the legs of `c` each way multiplies it by their each-way returns. */
  lemma {:induction false} PlaceAlongIsProduct(legs: seq<Leg>, c: seq<nat>, x: real)
    requires Within(c, 0, |legs|)
    ensures PlaceAlong(legs, c, true, x) == x * PlaceFactor(legs, c)
    decreases |c|
  {
    if |c| > 0 {
      var leg := legs[c[0]];
      var v := DoEachWay(1.0, leg.odds, leg.terms, leg.position);
      LegsScale(x, leg.odds, leg.terms, leg.position);
      assert PlaceAfter(leg, true, x) == x * v;
      PlaceAlongIsProduct(legs, c[1..], x * v);
      assert PlaceAlong(legs, c, true, x) == PlaceAlong(legs, c[1..], true, PlaceAfter(leg, true, x));
      assert PlaceFactor(legs, c) == v * PlaceFactor(legs, c[1..]);
      assert (x * v) * PlaceFactor(legs, c[1..]) == x * (v * PlaceFactor(legs, c[1..]));
    }
  }

  /** What the staking test adds for combination `c` on its own: the stake rides on the product of its legs' returns. */
  function Payout(w: Wager, legs: seq<Leg>, c: seq<nat>): Totals
  {
    RoundGain(w.g, w.bt, w.stake, |c|, w.isEachWay, w.stake * WinFactor(legs, c), w.stake * PlaceFactor(legs, c))
  }

  /** What the combinations `cs` add, each settled on its own, in order. */
  function Payouts(w: Wager, legs: seq<Leg>, cs: seq<seq<nat>>): seq<Totals>
  {
    seq(|cs|, k requires 0 <= k < |cs| => Payout(w, legs, cs[k]))
  }

  /** Settled on top of nothing, with the stake riding on both parts, each combination adds its own payout. */
  lemma GainsAreProducts(w: Wager, legs: seq<Leg>, cs: seq<seq<nat>>)
    requires AllWithin(cs, |legs|)
    ensures Gains(w, legs, 0, w.stake, w.stake, cs) == Payouts(w, legs, cs)
  {
    forall k | 0 <= k < |cs|
      ensures Gain(w, legs, 0, w.stake, w.stake, cs[k]) == Payout(w, legs, cs[k])
    {
      WinAlongIsProduct(legs, cs[k], w.stake);
      PlaceAlongIsProduct(legs, cs[k], w.stake);
    }
  }

  /**
   * A whole bet, settled by the nested loops, lays and returns the sums,
   * over every combination of one to eight legs in increasing order (each
   * once, by AllCombinationsExactlyOnce), of what the staking test adds for
   * that combination: the stake (twice each way) when the test admits the
   * combination's size, against the stake times the product of its legs'
   * win returns, plus the stake times the product of their each-way
   * returns for an each-way bet.
   */
  lemma SettlesEveryCombination(w: Wager, legs: seq<Leg>)
    ensures AllWithin(AllCombinations(|legs|), |legs|)
    ensures SettleLegs(w.g, legs, w.bt, w.stake, w.isEachWay) == Sum(Payouts(w, legs, AllCombinations(|legs|)))
  {
    CombosWithin(0, |legs|, 8);
    SweepSumsCombos(w, legs, 0, 1, w.stake, w.stake);
    GainsAreProducts(w, legs, AllCombinations(|legs|));
  }
}
