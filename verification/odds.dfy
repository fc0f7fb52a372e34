/**
 The value types of the arbitrage engine: the three prices a bookmaker quotes for
 one game, the game itself and the bookmaker that quotes a list of games.
 Prices are exact reals; the source's float64 arithmetic is not modelled.
 */
module OddsModel {

  /** The decimal prices (payout multipliers) of the three outcomes of one game. */
  datatype Odds = Odds(win: real, draw: real, lose: real)

  /** One bookmaker's quote for one game. `id` identifies the game across bookmakers. */
  datatype Game = Game(id: string, teamA: string, teamB: string, odds: Odds, eventAt: string)

  /** A bookmaker and the games it quotes. */
  datatype Bookmaker = Bookmaker(name: string, games: seq<Game>)

  /** The three outcomes of a game; used to state per-field facts once for all fields. */
  datatype Outcome = Win | Draw | Lose

  /** The price quoted for outcome `k`. */
  function Price(o: Odds, k: Outcome): real
  {
    match k
    case Win => o.win
    case Draw => o.draw
    case Lose => o.lose
  }

  /** Two odds records that agree on every outcome are the same record. */
  lemma OddsExtensional(a: Odds, b: Odds)
    requires forall k :: Price(a, k) == Price(b, k)
    ensures a == b
  {
    assert Price(a, Win) == Price(b, Win);
    assert Price(a, Draw) == Price(b, Draw);
    assert Price(a, Lose) == Price(b, Lose);
  }

  /** Every price is strictly positive: the only odds the arbitrage formulas accept. */
  predicate ValidOdds(o: Odds)
  {
    o.win > 0.0 && o.draw > 0.0 && o.lose > 0.0
  }

  /** The one way an evaluation can fail: a price that is zero or negative. */
  datatype ArbitrageError = InvalidOdds

  datatype Result<T> = Success(value: T) | Failure(error: ArbitrageError)

  datatype Option<T> = None | Some(value: T)
}
