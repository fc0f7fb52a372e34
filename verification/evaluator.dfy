/**
 The arbitrage formulas applied to one best-odds combination: the arbitrage percentage
 (the sum of the implied probabilities), the stake split that equalises the payouts,
 and the profit that split guarantees. The source divides by the prices unguarded;
 here a price that is not positive is rejected with `InvalidOdds`.
 */
module Evaluator {
  import opened OddsModel

  /** The amounts placed on the three outcomes. */
  datatype Stakes = Stakes(win: real, draw: real, lose: real)

  /** The amount placed on outcome `k`. */
  function Stake(s: Stakes, k: Outcome): real
  {
    match k
    case Win => s.win
    case Draw => s.draw
    case Lose => s.lose
  }

  /** The total amount placed. */
  function TotalStake(s: Stakes): real
  {
    s.win + s.draw + s.lose
  }

  /** 1/win + 1/draw + 1/lose, or `InvalidOdds` when some price is not positive. */
  function ArbitragePercentage(o: Odds): (r: Result<real>)
    ensures r.Success? <==> ValidOdds(o)
    ensures r.Success? ==> 0.0 < r.value
    ensures r.Success? ==> forall k :: 0.0 < 1.0 / Price(o, k) < r.value
  {
    if ValidOdds(o) then Success(1.0 / o.win + 1.0 / o.draw + 1.0 / o.lose)
    else Failure(InvalidOdds)
  }

  /** An event is an arbitrage opportunity when its percentage is below 1; odds with a
      price that is not positive are never an opportunity. */
  predicate IsOpportunity(o: Odds)
    ensures IsOpportunity(o) ==> ValidOdds(o)
    ensures ValidOdds(o) ==> (IsOpportunity(o) <==> ArbitragePercentage(o).value < 1.0)
  {
    match ArbitragePercentage(o)
    case Success(ap) => ap < 1.0
    case Failure(_) => false
  }

  /** Splits `totalBet` in proportion to the implied probabilities. */
  function CalculateStakes(o: Odds, totalBet: real): (r: Result<Stakes>)
    ensures r.Success? <==> ValidOdds(o)
    ensures r.Success? ==>
      forall k :: Stake(r.value, k) * Price(o, k) == totalBet / ArbitragePercentage(o).value
    ensures r.Success? ==> TotalStake(r.value) == totalBet
  {
    match ArbitragePercentage(o)
    case Failure(e) => Failure(e)
    case Success(ap) =>
      var payout := totalBet / ap;
      var s := Stakes(payout / o.win, payout / o.draw, payout / o.lose);
      StakesSum(o.win, o.draw, o.lose, payout);
      Success(s)
  }

  /** Dividing by each price and adding is multiplying by the sum of the reciprocals. */
  lemma StakesSum(w: real, d: real, l: real, payout: real)
    requires 0.0 < w && 0.0 < d && 0.0 < l
    ensures payout / w + payout / d + payout / l == payout * (1.0 / w + 1.0 / d + 1.0 / l)
  {
  }

  /** The payout every outcome returns minus the total staked. */
  function GuaranteedProfit(o: Odds, totalBet: real): (r: Result<real>)
    ensures r.Success? <==> ValidOdds(o)
    ensures r.Success? ==> r.value == totalBet / ArbitragePercentage(o).value - totalBet
    ensures r.Success? && 0.0 < totalBet ==> (0.0 < r.value <==> IsOpportunity(o))
  {
    match ArbitragePercentage(o)
    case Failure(e) => Failure(e)
    case Success(ap) =>
      var stakes := CalculateStakes(o, totalBet).value;
      var profit := totalBet / ap - TotalStake(stakes);
      PayoutExceedsBetIffBelowOne(totalBet, ap);
      Success(profit)
  }

  /** For a positive bet, totalBet / ap exceeds totalBet exactly when ap is below 1. */
  lemma PayoutExceedsBetIffBelowOne(totalBet: real, ap: real)
    requires 0.0 < ap
    ensures 0.0 < totalBet ==> (totalBet < totalBet / ap <==> ap < 1.0)
  {
    if 0.0 < totalBet {
      var surplus := totalBet * (1.0 - ap);
      assert totalBet / ap - totalBet == surplus / ap;
      QuotientSign(surplus, ap);
      if ap < 1.0 {
        ScaleStrict(totalBet, 0.0, 1.0 - ap);
      } else {
        ScaleWeak(totalBet, 1.0 - ap, 0.0);
      }
    }
  }

  /** A quotient by a positive number has the sign of its numerator. */
  lemma QuotientSign(n: real, d: real)
    requires 0.0 < d
    ensures 0.0 < n <==> 0.0 < n / d
  {
  }

  /** Multiplying a strict inequality by a positive factor. */
  lemma ScaleStrict(x: real, a: real, b: real)
    requires 0.0 < x && a < b
    ensures x * a < x * b
  {
  }

  /** Multiplying a weak inequality by a non-negative factor. */
  lemma ScaleWeak(x: real, a: real, b: real)
    requires 0.0 <= x && a <= b
    ensures x * a <= x * b
  {
  }

  /** A split of a positive total that pays more than the total on every outcome. */
  ghost predicate SureProfit(o: Odds, s: Stakes)
  {
    0.0 < TotalStake(s) && forall k :: TotalStake(s) < Stake(s, k) * Price(o, k)
  }

  /** Without an opportunity, any split of a positive total loses or breaks even on some outcome. */
  lemma NoOpportunityNoSureProfit(o: Odds, s: Stakes)
    requires ValidOdds(o) && !IsOpportunity(o)
    ensures !SureProfit(o, s)
  {
    if 0.0 < TotalStake(s) {
      NoSureProfitArith(s.win, s.draw, s.lose, o.win, o.draw, o.lose);
      assert !(TotalStake(s) < Stake(s, Win) * Price(o, Win)
               && TotalStake(s) < Stake(s, Draw) * Price(o, Draw)
               && TotalStake(s) < Stake(s, Lose) * Price(o, Lose));
    }
  }

  /** The arithmetic core of the lemma above: with 1/w + 1/d + 1/l at least 1, amounts
      a, b, c with a positive sum cannot all pay more than that sum at prices w, d, l. */
  lemma NoSureProfitArith(a: real, b: real, c: real, w: real, d: real, l: real)
    requires 0.0 < w && 0.0 < d && 0.0 < l
    requires 1.0 <= 1.0 / w + 1.0 / d + 1.0 / l
    requires 0.0 < a + b + c
    ensures !(a + b + c < a * w && a + b + c < b * d && a + b + c < c * l)
  {
    var t := a + b + c;
    if t < a * w && t < b * d && t < c * l {
      DivideBelow(t, a, w);
      DivideBelow(t, b, d);
      DivideBelow(t, c, l);
      StakesSum(w, d, l, t);
      ScaleWeak(t, 1.0, 1.0 / w + 1.0 / d + 1.0 / l);
    }
  }

  /** Dividing both sides of t < s * p by a positive p. */
  lemma DivideBelow(t: real, s: real, p: real)
    requires 0.0 < p && t < s * p
    ensures t / p < s
  {
  }

  /** An event is an opportunity exactly when some split of a positive total profits
      on every outcome; the computed stakes are such a split. */
  lemma OpportunityIffSureProfit(o: Odds)
    requires ValidOdds(o)
    ensures IsOpportunity(o) <==> exists s :: SureProfit(o, s)
  {
    if IsOpportunity(o) {
      var s := CalculateStakes(o, 1.0).value;
      var ap := ArbitragePercentage(o).value;
      PayoutExceedsBetIffBelowOne(1.0, ap);
      assert forall k :: TotalStake(s) < Stake(s, k) * Price(o, k);
      assert SureProfit(o, s);
    } else {
      forall s
        ensures !SureProfit(o, s)
      {
        NoOpportunityNoSureProfit(o, s);
      }
    }
  }
}
