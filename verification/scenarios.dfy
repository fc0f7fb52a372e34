/**
 Concrete runs of the engine on small inputs.
 */
module Scenarios {
  import opened OddsModel
  import opened Evaluator
  import opened Aggregator

  /** Two bookmakers quote the same game; the best odds take the win price from the
      first and the draw and lose prices from the second. */
  lemma MixedBestOdds()
    ensures BestOdds([
      Bookmaker("A", [Game("g1", "Home", "Away", Odds(2.10, 3.00, 4.00), "2024-05-01")]),
      Bookmaker("B", [Game("g1", "Home", "Away", Odds(1.90, 3.50, 4.20), "2024-05-01")])
    ]) == map["g1" := Odds(2.10, 3.50, 4.20)]
  {
    var a := Bookmaker("A", [Game("g1", "Home", "Away", Odds(2.10, 3.00, 4.00), "2024-05-01")]);
    var b := Bookmaker("B", [Game("g1", "Home", "Away", Odds(1.90, 3.50, 4.20), "2024-05-01")]);
    assert [a, b][..1] == [a] && [a][..0] == [];
    assert a.games[..0] == [] && b.games[..0] == [];
    var first := map["g1" := Odds(2.10, 3.00, 4.00)];
    assert AbsorbGames(map[], a.games) == Absorb(map[], a.games[0]) == first;
    assert BestOdds([a]) == first;
    assert AbsorbGames(first, b.games) == Absorb(first, b.games[0]);
  }

  /** That mixed combination is exactly break-even (10/21 + 6/21 + 5/21 = 1), so it is
      not reported. */
  lemma MixedBestOddsBreakEven()
    ensures ArbitragePercentage(Odds(2.10, 3.50, 4.20)) == Success(1.0)
    ensures !IsOpportunity(Odds(2.10, 3.50, 4.20))
  {
  }

  /** A market with an overround: the percentage is 1.5 and nothing is reported. */
  lemma OverroundNoOpportunity()
    ensures ArbitragePercentage(Odds(1.50, 2.00, 3.00)) == Success(1.5)
    ensures !IsOpportunity(Odds(1.50, 2.00, 3.00))
  {
  }

  /** Percentage 0.4 + 0.25 + 0.2 = 0.85: a bet of 100 is split 800/17, 500/17, 400/17,
      every outcome pays 2000/17 and the guaranteed profit is 300/17. */
  lemma ProfitableSplit()
    ensures IsOpportunity(Odds(2.50, 4.00, 5.00))
    ensures CalculateStakes(Odds(2.50, 4.00, 5.00), 100.0)
            == Success(Stakes(800.0 / 17.0, 500.0 / 17.0, 400.0 / 17.0))
    ensures GuaranteedProfit(Odds(2.50, 4.00, 5.00), 100.0) == Success(300.0 / 17.0)
  {
  }

  /** A zero price is rejected before any stake is computed. */
  lemma ZeroPriceRejected()
    ensures ArbitragePercentage(Odds(2.00, 0.0, 3.00)) == Failure(InvalidOdds)
    ensures CalculateStakes(Odds(2.00, 0.0, 3.00), 100.0) == Failure(InvalidOdds)
    ensures !IsOpportunity(Odds(2.00, 0.0, 3.00))
  {
  }
}
