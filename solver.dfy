/**
 * `calculate_arbitrage`: the two hedges of a binary market quoted on two
 * venues (yes on A with no on B, and yes on B with no on A), each sized in
 * closed form so that both legs pay the same, and the better one chosen.
 * Arithmetic is on exact reals; `round` is Numeric.Round.
 */
module Solver {
  import opened Wrappers
  import opened Numeric

  /** Python's ZeroDivisionError, the one way the solver can fail. */
  datatype SolverError = DivisionByZero

  /** One hedge before rounding: the stakes on the yes and the no leg and what they yield. */
  datatype Leg = Leg(stakeYes: real, stakeNo: real, payout: real, profit: real, profitPct: real, combined: real)

  /** The returned dictionary; platform_a is always the yes leg and platform_b the no leg. */
  datatype Allocation = Allocation(
    platformAPrice: real,
    platformBPrice: real,
    betAmountA: real,
    betAmountB: real,
    totalInvestment: real,
    guaranteedPayout: real,
    profit: real,
    profitPercentage: real,
    combinedProbability: real)

  const DefaultInvestment: real := 100.0

  /** Percentage return of a hedge bought at combined price `c`. */
  function Pct(c: real): real
    requires c != 0.0
  {
    (1.0 / c - 1.0) * 100.0
  }

  /** Sizing a direction divides by zero: by the combined price, the yes price or the investment. */
  predicate DivisionFails(yes: real, no: real, total: real) {
    yes + no < 1.0 && (yes + no == 0.0 || yes == 0.0 || total == 0.0)
  }

  /** One direction (yes at `yes`, no at `no`), computed as the code does. */
  function SizeDirection(yes: real, no: real, total: real): (r: Result<Option<Leg>, SolverError>)
    ensures r.Failure? <==> DivisionFails(yes, no, total)
    ensures r == Success(None) <==> yes + no >= 1.0
    ensures r.Success? && r.value.Some? ==>
      var l := r.value.value;
      var c := yes + no;
      c < 1.0 && c != 0.0 && l.combined == c &&
      l.stakeYes + l.stakeNo == total &&
      l.payout == total / c && l.stakeYes == l.payout * yes && l.stakeNo == l.payout * no &&
      l.profit == l.payout - total && l.profitPct == Pct(c)
  {
    var c := yes + no;
    if c >= 1.0 then Success(None)
    else if c == 0.0 || yes == 0.0 || total == 0.0 then Failure(DivisionByZero)
    else
      var stakeYes := total * yes / c;
      var stakeNo := total * no / c;
      var payout := stakeYes / yes;
      var profit := payout - total;
      SizingFacts(yes, no, total);
      Success(Some(Leg(stakeYes, stakeNo, payout, profit, profit / total * 100.0, c)))
  }

  /** The closed form balances the hedge: the stakes use up the investment and both legs pay `total/c`. */
  lemma SizingFacts(yes: real, no: real, total: real)
    requires yes + no != 0.0 && yes != 0.0 && total != 0.0
    ensures var c := yes + no;
      total * yes / c + total * no / c == total &&
      (total * yes / c) / yes == total / c &&
      total * yes / c == (total / c) * yes && total * no / c == (total / c) * no &&
      ((total * yes / c) / yes - total) / total * 100.0 == Pct(c)
  {
    var c := yes + no;
    var p := total / c;
    assert total * yes / c == p * yes;
    assert total * no / c == p * no;
    assert p * yes + p * no == p * c;
    assert p * c == total;
    assert (p * yes) / yes == p;
    DivSub(p, total, total);
    assert p / total == 1.0 / c;
  }

  lemma DivSub(a: real, b: real, t: real)
    requires t != 0.0
    ensures (a - b) / t == a / t - b / t
  {
  }

  /** Direction 1 (yes on A, no on B) is taken only when it beats direction 2 strictly, or direction 2 is not a hedge. */
  predicate FirstDirectionWins(yesA: real, noB: real, yesB: real, noA: real)
    requires yesA + noB != 0.0 && yesB + noA != 0.0
  {
    yesA + noB < 1.0 && (yesB + noA >= 1.0 || Pct(yesA + noB) > Pct(yesB + noA))
  }

  function Rounded(yes: real, no: real, total: real, l: Leg): Allocation {
    Allocation(yes, no, Round(l.stakeYes, 2), Round(l.stakeNo, 2), total, Round(l.payout, 2),
               Round(l.profit, 2), Round(l.profitPct, 4), Round(l.combined, 4))
  }

  function CalculateArbitrage(yesA: real, noB: real, yesB: real, noA: real, total: real): (r: Result<Option<Allocation>, SolverError>)
    ensures r.Failure? <==> DivisionFails(yesA, noB, total) || DivisionFails(yesB, noA, total)
    ensures r == Success(None) <==>
      !DivisionFails(yesA, noB, total) && !DivisionFails(yesB, noA, total) &&
      yesA + noB >= 1.0 && yesB + noA >= 1.0
    ensures r.Success? && r.value.Some? ==>
      var a := r.value.value;
      yesA + noB != 0.0 && yesB + noA != 0.0 &&
      var first := FirstDirectionWins(yesA, noB, yesB, noA);
      var yes := if first then yesA else yesB;
      var no := if first then noB else noA;
      var c := yes + no;
      c < 1.0 && c != 0.0 && yes != 0.0 &&
      a.platformAPrice == yes && a.platformBPrice == no && a.totalInvestment == total &&
      a.betAmountA == Round(total * yes / c, 2) && a.betAmountB == Round(total * no / c, 2) &&
      Abs(a.betAmountA + a.betAmountB - total) <= 0.01 &&
      a.guaranteedPayout == Round(total / c, 2) &&
      a.profit == Round(total / c - total, 2) &&
      a.profitPercentage == Round(Pct(c), 4) && Abs(a.profitPercentage - Pct(c)) <= 0.00005 &&
      a.combinedProbability == Round(c, 4)
  {
    var d1 := SizeDirection(yesA, noB, total);
    if d1.Failure? then Failure(DivisionByZero)
    else
      var d2 := SizeDirection(yesB, noA, total);
      if d2.Failure? then Failure(DivisionByZero)
      else if d1.value.Some? && (d2.value.None? || d1.value.value.profitPct > d2.value.value.profitPct) then
        RoundedStakes(d1.value.value.stakeYes, d1.value.value.stakeNo);
        Success(Some(Rounded(yesA, noB, total, d1.value.value)))
      else if d2.value.Some? then
        RoundedStakes(d2.value.value.stakeYes, d2.value.value.stakeNo);
        Success(Some(Rounded(yesB, noA, total, d2.value.value)))
      else Success(None)
  }

  lemma RoundedStakes(x: real, y: real)
    ensures Abs(Round(x, 2) + Round(y, 2) - (x + y)) <= 0.01
  {
    RoundedSum(x, y, 2);
  }

  /** For positive combined prices a cheaper hedge always has the higher return. */
  lemma PctOrder(c1: real, c2: real)
    requires 0.0 < c1 && 0.0 < c2
    ensures Pct(c1) > Pct(c2) <==> c1 < c2
  {
    if c1 < c2 {
      assert 1.0 / c1 > 1.0 / c2 by {
        assert (1.0 / c1) * c1 == 1.0 && (1.0 / c2) * c2 == 1.0;
        assert (1.0 / c2) * c1 < (1.0 / c2) * c2;
      }
    } else {
      assert 1.0 / c1 <= 1.0 / c2 by {
        assert (1.0 / c1) * c1 == 1.0 && (1.0 / c2) * c2 == 1.0;
        assert (1.0 / c1) * c2 <= (1.0 / c1) * c1;
      }
    }
  }

  /** Every hedge with a combined price in (0, 1) returns a strictly positive percentage. */
  lemma PctPositive(c: real)
    requires 0.0 < c < 1.0
    ensures Pct(c) > 0.0
  {
    assert (1.0 / c) * c == 1.0;
  }

  /**
   * The choice between the directions depends only on the combined prices:
   * direction 1 wins iff it is a hedge and strictly cheaper than direction 2
   * (or direction 2 is no hedge); an exact tie goes to direction 2.
   */
  lemma ChoiceByCombinedPrice(yesA: real, noB: real, yesB: real, noA: real)
    requires 0.0 < yesA + noB && 0.0 < yesB + noA
    ensures FirstDirectionWins(yesA, noB, yesB, noA) <==>
      yesA + noB < 1.0 && (yesB + noA >= 1.0 || yesA + noB < yesB + noA)
  {
    PctOrder(yesA + noB, yesB + noA);
  }

  /** With prices in (0, 1] nothing divides by zero, and the result is empty exactly when neither direction is a hedge. */
  lemma NoneIffNoHedge(yesA: real, noB: real, yesB: real, noA: real, total: real)
    requires 0.0 < yesA && 0.0 < noB && 0.0 < yesB && 0.0 < noA && total != 0.0
    ensures CalculateArbitrage(yesA, noB, yesB, noA, total).Success?
    ensures CalculateArbitrage(yesA, noB, yesB, noA, total).value.None? <==> yesA + noB >= 1.0 && yesB + noA >= 1.0
  {
  }

  /** A zero yes price on the cheaper side raises instead of returning. */
  lemma ZeroYesPriceFails(noB: real, yesB: real, noA: real, total: real)
    requires 0.0 < noB < 1.0
    ensures CalculateArbitrage(0.0, noB, yesB, noA, total).Failure?
  {
  }

  lemma SetupLeg()
    ensures SizeDirection(0.45, 0.52, 100.0) ==
      Success(Some(Leg(4500.0 / 97.0, 5200.0 / 97.0, 10000.0 / 97.0, 300.0 / 97.0, 300.0 / 97.0, 0.97)))
  {
  }

  lemma SetupRounding()
    ensures Round(4500.0 / 97.0, 2) == 46.39 && Round(5200.0 / 97.0, 2) == 53.61
    ensures Round(10000.0 / 97.0, 2) == 103.09 && Round(300.0 / 97.0, 2) == 3.09
    ensures Round(300.0 / 97.0, 4) == 3.0928 && Round(0.97, 4) == 0.97
  {
    RoundAt(4500.0 / 97.0, 2, 4639);
    RoundAt(5200.0 / 97.0, 2, 5361);
    RoundAt(10000.0 / 97.0, 2, 10309);
    RoundAt(300.0 / 97.0, 2, 309);
    RoundAt(300.0 / 97.0, 4, 30928);
    RoundAt(0.97, 4, 9700);
  }

  /** The hedge quoted as PM yes 0.45 / no 0.55 against Kalshi yes 0.48 / no 0.52. */
  lemma SetupExample()
    ensures CalculateArbitrage(0.45, 0.52, 0.48, 0.55, DefaultInvestment) ==
      Success(Some(Allocation(0.45, 0.52, 46.39, 53.61, 100.0, 103.09, 3.09, 3.0928, 0.97)))
  {
    SetupLeg();
    SetupRounding();
  }

  lemma SecondLeg()
    ensures SizeDirection(0.47, 0.44, 100.0) ==
      Success(Some(Leg(4700.0 / 91.0, 4400.0 / 91.0, 10000.0 / 91.0, 900.0 / 91.0, 900.0 / 91.0, 0.91)))
  {
  }

  lemma SecondRounding()
    ensures Round(4700.0 / 91.0, 2) == 51.65 && Round(4400.0 / 91.0, 2) == 48.35
    ensures Round(10000.0 / 91.0, 2) == 109.89 && Round(900.0 / 91.0, 2) == 9.89
    ensures Round(900.0 / 91.0, 4) == 9.8901 && Round(0.91, 4) == 0.91
  {
    RoundAt(4700.0 / 91.0, 2, 5165);
    RoundAt(4400.0 / 91.0, 2, 4835);
    RoundAt(10000.0 / 91.0, 2, 10989);
    RoundAt(900.0 / 91.0, 2, 989);
    RoundAt(900.0 / 91.0, 4, 98901);
    RoundAt(0.91, 4, 9100);
  }

  /** PM yes 0.58 / no 0.44 against Kalshi yes 0.47 / no 0.53: only yes on Kalshi with no on PM is a hedge. */
  lemma SecondDirectionExample()
    ensures CalculateArbitrage(0.58, 0.53, 0.47, 0.44, DefaultInvestment) ==
      Success(Some(Allocation(0.47, 0.44, 51.65, 48.35, 100.0, 109.89, 9.89, 9.8901, 0.91)))
  {
    SecondLeg();
    SecondRounding();
  }
}
