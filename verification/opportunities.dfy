/**
 The arbitrage scan: aggregate the bookmakers' quotes into best odds, then visit every
 game of the best-odds map (in no particular order) and record, for each game whose
 arbitrage percentage is below 1, its odds, percentage, stakes and guaranteed profit.
 The records are returned keyed by game ID instead of being printed.
 */
module Opportunities {
  import opened OddsModel
  import opened Evaluator
  import opened Aggregator

  /** What is reported for one game: its best odds, their arbitrage percentage, the
      stakes for the total bet and the profit those stakes guarantee. */
  datatype Opportunity = Opportunity(odds: Odds, percentage: real, stakes: Stakes, profit: real)

  /** The report for odds `o`, or `None` when they are no opportunity. Odds with a price
      that is not positive are skipped rather than aborting the scan. */
  function Assess(o: Odds, totalBet: real): (r: Option<Opportunity>)
    ensures r.Some? <==> IsOpportunity(o)
    ensures r.Some? ==> r.value.odds == o && 0.0 < r.value.percentage < 1.0
    ensures r.Some? ==> r.value.percentage == ArbitragePercentage(o).value
    ensures r.Some? ==> TotalStake(r.value.stakes) == totalBet
    ensures r.Some? ==>
      forall k :: Stake(r.value.stakes, k) * Price(o, k) == totalBet / r.value.percentage
    ensures r.Some? ==> r.value.profit == totalBet / r.value.percentage - totalBet
    ensures r.Some? && 0.0 < totalBet ==> 0.0 < r.value.profit
    ensures r.Some? && 0.0 < totalBet ==>
      forall k :: totalBet < Stake(r.value.stakes, k) * Price(o, k)
  {
    match ArbitragePercentage(o)
    case Failure(_) => None
    case Success(ap) =>
      if ap < 1.0 then
        PayoutExceedsBetIffBelowOne(totalBet, ap);
        Some(Opportunity(o, ap, CalculateStakes(o, totalBet).value, GuaranteedProfit(o, totalBet).value))
      else None
  }

  /** The reports for every game of a best-odds map that is an opportunity. */
  function Report(best: map<string, Odds>, totalBet: real): (r: map<string, Opportunity>)
    ensures r.Keys == set id | id in best && IsOpportunity(best[id])
    ensures forall id :: id in r ==> Assess(best[id], totalBet) == Some(r[id])
  {
    map id | id in best && Assess(best[id], totalBet).Some? :: Assess(best[id], totalBet).value
  }

  /** Aggregates the quotes, then evaluates every game of the best-odds map once. */
  method FindArbitrageOpportunities(bookmakers: seq<Bookmaker>, totalBet: real)
    returns (found: map<string, Opportunity>)
    ensures found == Report(BestOdds(bookmakers), totalBet)
  {
    var bestOdds := FindBestOdds(bookmakers);
    found := ScanBestOdds(bestOdds, totalBet);
  }

  /** The loop over the best-odds map: visits its games in an arbitrary order and records
      the report of each game whose arbitrage percentage is below 1. */
  method ScanBestOdds(bestOdds: map<string, Odds>, totalBet: real)
    returns (found: map<string, Opportunity>)
    ensures found == Report(bestOdds, totalBet)
  {
    found := map[];
    var pending := bestOdds.Keys;
    while pending != {}
      invariant pending <= bestOdds.Keys
      invariant found == Report(bestOdds - pending, totalBet)
      decreases pending
    {
      var gameID :| gameID in pending;
      var odds := bestOdds[gameID];
      var percentage := ArbitragePercentage(odds);
      if percentage.Success? {
        var arbitragePercentage := percentage.value;
        if arbitragePercentage < 1.0 {
          var stakes := CalculateStakes(odds, totalBet).value;
          var totalStake := stakes.win + stakes.draw + stakes.lose;
          var guaranteedProfit := totalBet / arbitragePercentage - totalStake;
          found := found[gameID := Opportunity(odds, arbitragePercentage, stakes, guaranteedProfit)];
        }
      }
      ReportStep(bestOdds, pending, gameID, totalBet);
      pending := pending - {gameID};
    }
    assert bestOdds - {} == bestOdds;
  }

  /** Moving one game from pending to visited adds its report, if it has one. */
  lemma ReportStep(best: map<string, Odds>, pending: set<string>, id: string, totalBet: real)
    requires id in pending && pending <= best.Keys
    ensures Report(best - (pending - {id}), totalBet) ==
      if IsOpportunity(best[id])
      then Report(best - pending, totalBet)[id := Assess(best[id], totalBet).value]
      else Report(best - pending, totalBet)
  {
  }

  /** A game of the best-odds map is reported exactly when some split of a positive
      total across its best odds pays more than the total on every outcome. */
  lemma ReportedIffSureProfit(best: map<string, Odds>, totalBet: real, id: string)
    requires id in best && ValidOdds(best[id])
    ensures id in Report(best, totalBet) <==> exists s :: SureProfit(best[id], s)
  {
    OpportunityIffSureProfit(best[id]);
  }
}
