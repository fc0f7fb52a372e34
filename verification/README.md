# Sports-betting arbitrage engine in Dafny

A model of the odds-aggregation and arbitrage engine of a small sports-betting
arbitrage program (`sba.go`). Several bookmakers each quote win/draw/lose decimal
prices for games identified by an ID. The engine

1. folds every bookmaker's quotes into a **best-odds map** from game ID to odds, keeping
   the largest win, draw and lose price independently (so the three prices of one game
   may come from three different bookmakers);
2. computes each game's **arbitrage percentage** `1/win + 1/draw + 1/lose` and flags the
   game when it is below 1;
3. for a flagged game splits a total bet into **stakes** `(totalBet / percentage) / price`
   and computes the **guaranteed profit** `totalBet / percentage - (sum of stakes)`;
4. truncates generated prices to **two decimals** (`int(val * 100) / 100`).

Prices are exact `real` numbers. The best-odds aggregation (`findBestOdds`) and the scan
over the best-odds map (`findArbitrageOpportunities`) are loops that update a map and
are modelled as methods with loop invariants. Each is proved equal to a pure
specification function, and the properties of the engine are proved as lemmas about
those functions. The arithmetic helpers are functions.

Files, one module each:

- `odds.dfy` (`OddsModel`): `Odds`, `Game`, `Bookmaker`. `Outcome`/`Price` let each
  per-field fact be stated once for all three outcomes. `ValidOdds` means every price is
  positive. `Result` carries the `InvalidOdds` error.
- `rounding.dfy` (`Rounding`): two-decimal truncation.
- `evaluator.dfy` (`Evaluator`): arbitrage percentage, stakes, guaranteed profit, the
  opportunity test and what it means economically.
- `aggregator.dfy` (`Aggregator`): the best-odds fold, the imperative `FindBestOdds` and
  its properties.
- `opportunities.dfy` (`Opportunities`): the scan that reports every opportunity of the
  best-odds map.
- `scenarios.dfy` (`Scenarios`): the engine on small concrete inputs.

The source's division at sba.go:120 has no guard: a zero price gives `+Inf`. Here the
percentage, stake and profit functions return `Failure(InvalidOdds)` when some price is
not positive, and the scan skips such games and goes on with the others.

The combination {2.10, 3.50, 4.20} has percentage 10/21 + 6/21 + 5/21 = 1 exactly, so
it is not an opportunity and the engine does not report it
(`Scenarios.MixedBestOddsBreakEven`). In binary64 the three reciprocals also add up to
exactly 1.0, so the Go program does not report it either.

## Model

| member | source | states |
|---|---|---|
| `Rounding.TruncateTowardZero` | sba.go:49 | the integer conversion drops the fraction toward zero: for x ≥ 0 it is the greatest integer ≤ x, for x < 0 the least integer ≥ x |
| `Rounding.RoundToTwoDecimal` | sba.go:48-50 | for val ≥ 0 the result lies in [0, val] and is less than 0.01 below val; for val < 0 it lies in [val, 0] and is less than 0.01 above val; the result times 100 is an integer |
| `Rounding.RoundToTwoDecimalGreatestCents` | sba.go:48-50 | for val ≥ 0 the result is the largest whole number of cents not above val (truncation, not rounding to nearest) |
| `Rounding.RoundToTwoDecimalIdempotent` | sba.go:48-50 | truncating twice gives the same value as truncating once |
| `Evaluator.ArbitragePercentage` | sba.go:119-121 | fails with InvalidOdds exactly when some price is not positive; otherwise the percentage is positive and exceeds each outcome's implied probability 1/price |
| `Evaluator.IsOpportunity` | sba.go:157-158 | odds are flagged only when every price is positive; for such odds they are flagged exactly when the arbitrage percentage is below 1 |
| `Evaluator.CalculateStakes` | sba.go:124-130 | fails exactly on invalid odds; otherwise every outcome's payout stake × price equals totalBet / percentage (equal payouts), and the three stakes add up to totalBet |
| `Evaluator.StakesSum` | sba.go:126-128 | dividing one payout by each price and adding gives the payout times the sum of reciprocal prices |
| `Evaluator.GuaranteedProfit` | sba.go:164-165 | fails exactly on invalid odds; otherwise the profit is totalBet / percentage − totalBet, and for a positive bet it is positive iff the odds are an opportunity (percentage below 1) |
| `Evaluator.PayoutExceedsBetIffBelowOne` | sba.go:158 | for a positive bet, totalBet / percentage exceeds totalBet exactly when the percentage is below 1 |
| `Evaluator.NoOpportunityNoSureProfit` | sba.go:157-158 | when the percentage is at least 1, no split of a positive total pays more than the total on every outcome |
| `Evaluator.NoSureProfitArith` | sba.go:157-158 | with 1/w + 1/d + 1/l ≥ 1, three amounts with a positive sum cannot all pay more than that sum at prices w, d, l |
| `Evaluator.OpportunityIffSureProfit` | sba.go:157-158 | valid odds are flagged (percentage below 1) iff some split of a positive total profits on every outcome; the computed stakes are such a split |
| `Aggregator.Absorb` | sba.go:137-147 | folding one quote in adds its game ID to the keys and leaves every other game's entry unchanged |
| `Aggregator.AbsorbGames` | sba.go:135-148 | folding a list of quotes into a map adds exactly the quotes' game IDs to its keys |
| `Aggregator.BestOdds` | sba.go:133-151 | the best-odds map has a key for exactly the game IDs the bookmakers quote |
| `Aggregator.AbsorbPrices` | sba.go:137-147 | after one quote is folded in, each stored price of its game is at least the quote's and the old stored price, and equals one of them; a first quote is stored as given |
| `Aggregator.FindBestOdds` | sba.go:133-151 | the nested loops build exactly the fold `BestOdds` of all quotes, which is a best-odds view of the quotes (`IsBestOdds`) |
| `Aggregator.AbsorbGamesSpec` | sba.go:135-148 | folding a list of quotes into a map: every stored price is at least the map's old price and every quote's price for that ID, and is one of those |
| `Aggregator.AbsorbGamesAppend` | sba.go:135-148 | folding two lists one after the other equals folding their concatenation |
| `Aggregator.BestOddsFlattens` | sba.go:135-148 | the bookmaker-by-bookmaker fold equals the fold of all games in bookmaker order |
| `Aggregator.AllGamesAreQuotes` | sba.go:135-136 | the flattened game list holds exactly the games some bookmaker quotes |
| `Aggregator.BestOddsIsPerFieldMaximum` | sba.go:133-151 | the best-odds map has an entry for exactly the quoted IDs; for each ID and outcome the stored price is ≥ every quote's price for that ID and equals some quote's price |
| `Aggregator.BestOddsUnique` | sba.go:137-147 | two maps that are both best-odds views of the same quotes are equal |
| `Aggregator.BestOddsKeys` | sba.go:133-150 | an ID is a key iff some bookmaker quotes a game with that ID (so no bookmakers give an empty map) |
| `Aggregator.BestOddsDominates` | sba.go:137-147 | every quote's win, draw and lose price is at most the stored price of its game |
| `Aggregator.BestOddsAttained` | sba.go:137-147 | every stored price was quoted for that game by some bookmaker; the bookmaker may differ per outcome |
| `Aggregator.SingleQuotePassesThrough` | sba.go:137-147 | a game whose quotes all carry the same odds, in particular a game quoted once, is stored with exactly those odds |
| `Aggregator.OrderIndependent` | sba.go:135-148 | the map depends only on the set of quotes, not on the order of bookmakers or games or on repeated quotes |
| `Aggregator.BookmakerOrderIrrelevant` | sba.go:135 | any reordering of the bookmaker list gives the same map |
| `Aggregator.QuoteMoves` | sba.go:135-136 | a quote of one bookmaker list is a quote of any list holding the same bookmakers |
| `Aggregator.RepeatedInputSameMap` | sba.go:133-151 | aggregating the bookmaker list given twice gives the same map as aggregating it once |
| `Opportunities.Assess` | sba.go:157-165 | a game is reported iff its odds are an opportunity; the report carries those odds, its arbitrage percentage, which lies in (0, 1), stakes summing to the total bet with equal payouts, and profit totalBet / percentage − totalBet, which is positive, with every payout above the bet, for a positive bet |
| `Opportunities.Report` | sba.go:156-168 | the reported IDs are exactly the IDs of the best-odds map whose odds are an opportunity, each with its assessment |
| `Opportunities.FindArbitrageOpportunities` | sba.go:154-170 | aggregating the bookmakers and scanning the result yields exactly `Report` of the best-odds map of the bookmakers |
| `Opportunities.ScanBestOdds` | sba.go:156-168 | visiting the best-odds map's games in any order yields exactly `Report` of that map |
| `Opportunities.ReportStep` | sba.go:156-168 | visiting one more game adds that game's report when it is an opportunity and changes nothing otherwise |
| `Opportunities.ReportedIffSureProfit` | sba.go:156-158 | a game with valid best odds is reported iff some split of a positive total across its best odds profits on every outcome |
| `Scenarios.MixedBestOdds` | sba.go:137-147 | quotes {2.10, 3.00, 4.00} and {1.90, 3.50, 4.20} for one game aggregate to {2.10, 3.50, 4.20} |
| `Scenarios.MixedBestOddsBreakEven` | sba.go:119-121 | {2.10, 3.50, 4.20} has percentage exactly 1 and is not an opportunity |
| `Scenarios.OverroundNoOpportunity` | sba.go:157-158 | {1.50, 2.00, 3.00} has percentage 1.5 and is not an opportunity |
| `Scenarios.ProfitableSplit` | sba.go:124-130 | {2.50, 4.00, 5.00} is an opportunity; a bet of 100 splits into 800/17, 500/17, 400/17 and guarantees 300/17 |
| `Scenarios.ZeroPriceRejected` | sba.go:120 | a zero price makes the percentage and the stakes fail with InvalidOdds, and the game is not an opportunity |

## Left out

- Random odds generation seeded from the wall clock (sba.go:38-45) and the synthesis of
  games and bookmakers from a fake-data library (sba.go:53-66): nondeterministic and
  foreign. The bookmaker list is a parameter.
- The goroutine, WaitGroup and channel fan-out of `generateBookmakers` (sba.go:69-96):
  concurrency whose only product is the bookmaker list.
- Writing and reading the JSON snapshot (sba.go:99-116) and the load-or-generate choice
  in `main` (sba.go:172-195): file I/O.
- Printing of the opportunities and their `%.2f` formatting (sba.go:159-167): the scan
  returns the reports as a map from game ID to `Opportunity` instead.
- IEEE-754 behaviour: float rounding error, and the `+Inf`/NaN that a zero price gives in
  the source. All arithmetic is on exact reals.
- Rounding.RoundToTwoDecimalIdempotent: holds on exact reals only. In binary64,
  0.29 * 100 evaluates to 28.999999999999996, so roundToTwoDecimal(0.29) is 0.28, while
  roundToTwoDecimal(0.295) is 0.29; truncating 0.295 twice gives 0.28, not 0.29. The same
  input breaks Rounding.RoundToTwoDecimalGreatestCents (0.29 is a whole number of cents
  not above 0.29, yet the result is 0.28) and the clause of Rounding.RoundToTwoDecimal
  that the result times 100 is an integer (0.28 * 100 evaluates to 28.000000000000004).
- Rounding.TruncateTowardZero: uses an unbounded integer; the source's conversion to a
  64-bit `int` of a value outside its range is not modelled.
- Evaluator.ArbitragePercentage: rejects a negative price with InvalidOdds, and the scan
  then skips that game; the source would compute a percentage from it and might report it.
  A zero price behaves as in the source: the game is not reported.
- The total bet is a parameter of `FindArbitrageOpportunities`; the source fixes it at 100.
- Go's randomized map iteration order (sba.go:156): the scan picks the next game
  nondeterministically, and its result is a map, so the order is not observable.
