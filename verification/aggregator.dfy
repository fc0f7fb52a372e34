/**
 Best-odds aggregation: every bookmaker's quote for a game is folded into one map
 from game ID to odds, keeping the largest price for each outcome independently.
 The three best prices of a game may therefore come from three different bookmakers.
 */
module Aggregator {
  import opened OddsModel

  // ---------------------------------------------------------------------------
  // Specification: the aggregation as a left fold over the quotes
  // ---------------------------------------------------------------------------

  /** The map after one game's quote is folded in. A game seen for the first time is
      stored as quoted (the stored record starts from zero and every field is
      overwritten); otherwise each price is replaced only by a strictly larger one. */
  function Absorb(best: map<string, Odds>, game: Game): (r: map<string, Odds>)
    ensures r.Keys == best.Keys + {game.id}
    ensures forall id :: id in best && id != game.id ==> r[id] == best[id]
  {
    var seen := game.id in best;
    var current := if seen then best[game.id] else Odds(0.0, 0.0, 0.0);
    var win := if !seen || game.odds.win > current.win then game.odds.win else current.win;
    var draw := if !seen || game.odds.draw > current.draw then game.odds.draw else current.draw;
    var lose := if !seen || game.odds.lose > current.lose then game.odds.lose else current.lose;
    best[game.id := Odds(win, draw, lose)]
  }

  /** The map after the quotes `games` are folded in, in order. */
  function AbsorbGames(best: map<string, Odds>, games: seq<Game>): (r: map<string, Odds>)
    ensures r.Keys == best.Keys + Ids(set g | g in games)
  {
    if games == [] then best
    else Absorb(AbsorbGames(best, games[..|games| - 1]), games[|games| - 1])
  }

  /** The best-odds map of a bookmaker list: every bookmaker's games folded in, in order. */
  function BestOdds(bookmakers: seq<Bookmaker>): (r: map<string, Odds>)
    ensures r.Keys == Ids(set g | g in AllGames(bookmakers))
  {
    if bookmakers == [] then map[]
    else AbsorbGames(BestOdds(bookmakers[..|bookmakers| - 1]), bookmakers[|bookmakers| - 1].games)
  }

  /** Every game quoted by some bookmaker in the list, in bookmaker order. */
  function AllGames(bookmakers: seq<Bookmaker>): seq<Game>
  {
    if bookmakers == [] then []
    else AllGames(bookmakers[..|bookmakers| - 1]) + bookmakers[|bookmakers| - 1].games
  }

  /** The set of all quotes in the bookmaker list. */
  function Quotes(bookmakers: seq<Bookmaker>): set<Game>
  {
    set i, j | 0 <= i < |bookmakers| && 0 <= j < |bookmakers[i].games| :: bookmakers[i].games[j]
  }

  /** The IDs of a set of quotes. */
  function Ids(quotes: set<Game>): set<string>
  {
    set g | g in quotes :: g.id
  }

  /** `best` is a best-odds view of `quotes`: it has an entry for exactly the quoted IDs,
      and for each ID and each outcome its price is at least every quote's price for
      that ID and is the price some quote for that ID gave. */
  ghost predicate IsBestOdds(best: map<string, Odds>, quotes: set<Game>)
  {
    && best.Keys == Ids(quotes)
    && (forall g, k :: g in quotes ==> g.id in best && Price(g.odds, k) <= Price(best[g.id], k))
    && (forall id, k :: id in best ==>
          exists g :: g in quotes && g.id == id && Price(g.odds, k) == Price(best[id], k))
  }

  // ---------------------------------------------------------------------------
  // The imperative aggregation
  // ---------------------------------------------------------------------------

  /** Walks every bookmaker's games and updates the best-odds map entry by entry. */
  method FindBestOdds(bookmakers: seq<Bookmaker>) returns (bestOdds: map<string, Odds>)
    ensures bestOdds == BestOdds(bookmakers)
    ensures IsBestOdds(bestOdds, Quotes(bookmakers))
  {
    bestOdds := map[];
    for i := 0 to |bookmakers|
      invariant bestOdds == BestOdds(bookmakers[..i])
    {
      var bookmaker := bookmakers[i];
      ghost var before := bestOdds;
      for j := 0 to |bookmaker.games|
        invariant bestOdds == AbsorbGames(before, bookmaker.games[..j])
      {
        var game := bookmaker.games[j];
        var seen := game.id in bestOdds;
        var currentBest := if seen then bestOdds[game.id] else Odds(0.0, 0.0, 0.0);
        if !seen || game.odds.win > currentBest.win {
          currentBest := currentBest.(win := game.odds.win);
        }
        if !seen || game.odds.draw > currentBest.draw {
          currentBest := currentBest.(draw := game.odds.draw);
        }
        if !seen || game.odds.lose > currentBest.lose {
          currentBest := currentBest.(lose := game.odds.lose);
        }
        ghost var previous := bestOdds;
        bestOdds := bestOdds[game.id := currentBest];
        assert bestOdds == Absorb(previous, game);
        assert bookmaker.games[..j + 1][..j] == bookmaker.games[..j];
        assert AbsorbGames(before, bookmaker.games[..j + 1]) == Absorb(previous, game);
      }
      assert bookmaker.games[..|bookmaker.games|] == bookmaker.games;
      assert bookmakers[..i + 1][..i] == bookmakers[..i];
    }
    assert bookmakers[..|bookmakers|] == bookmakers;
    BestOddsIsPerFieldMaximum(bookmakers);
  }

  // ---------------------------------------------------------------------------
  // Properties of the specification
  // ---------------------------------------------------------------------------

  /** One absorbed quote: its prices are at most the stored ones, no stored price of
      the game decreases, and each stored price is the old one or the quote's. */
  lemma AbsorbPrices(best: map<string, Odds>, game: Game, k: Outcome)
    ensures game.id in Absorb(best, game)
    ensures Price(game.odds, k) <= Price(Absorb(best, game)[game.id], k)
    ensures game.id in best ==> Price(best[game.id], k) <= Price(Absorb(best, game)[game.id], k)
    ensures Price(Absorb(best, game)[game.id], k) == Price(game.odds, k)
            || (game.id in best && Price(Absorb(best, game)[game.id], k) == Price(best[game.id], k))
  {
  }

  /** What folding a list of quotes into a map does to the prices: every stored price is
      at least the map's own and every quote's, and is one of them. */
  lemma {:induction false} AbsorbGamesSpec(best: map<string, Odds>, games: seq<Game>)
    ensures forall id, k :: id in best ==>
      Price(best[id], k) <= Price(AbsorbGames(best, games)[id], k)
    ensures forall g, k :: g in games ==>
      g.id in AbsorbGames(best, games) && Price(g.odds, k) <= Price(AbsorbGames(best, games)[g.id], k)
    ensures forall id, k :: id in AbsorbGames(best, games) ==>
      (id in best && Price(AbsorbGames(best, games)[id], k) == Price(best[id], k))
      || exists g :: g in games && g.id == id && Price(g.odds, k) == Price(AbsorbGames(best, games)[id], k)
  {
    if games != [] {
      var init := games[..|games| - 1];
      var last := games[|games| - 1];
      assert games == init + [last];
      AbsorbGamesSpec(best, init);
      var mid := AbsorbGames(best, init);
      var r := AbsorbGames(best, games);
      assert r == Absorb(mid, last);
      assert (set g | g in games) == (set g | g in init) + {last};
      forall id, k | id in best
        ensures Price(best[id], k) <= Price(r[id], k)
      {
        if id == last.id {
          AbsorbPrices(mid, last, k);
        }
      }
      forall g, k | g in games
        ensures g.id in r && Price(g.odds, k) <= Price(r[g.id], k)
      {
        AbsorbPrices(mid, last, k);
      }
      forall id, k | id in r
        ensures (id in best && Price(r[id], k) == Price(best[id], k))
          || exists g :: g in games && g.id == id && Price(g.odds, k) == Price(r[id], k)
      {
        if id == last.id {
          AbsorbPrices(mid, last, k);
          if Price(r[id], k) == Price(last.odds, k) {
            assert last in games;
          }
        }
      }
    } else {
      assert AbsorbGames(best, games) == best;
    }
  }

  /** Folding in two lists of quotes one after the other is folding in their concatenation. */
  lemma {:induction false} AbsorbGamesAppend(best: map<string, Odds>, a: seq<Game>, b: seq<Game>)
    ensures AbsorbGames(best, a + b) == AbsorbGames(AbsorbGames(best, a), b)
  {
    if b != [] {
      assert (a + b)[..|a + b| - 1] == a + b[..|b| - 1];
      AbsorbGamesAppend(best, a, b[..|b| - 1]);
    } else {
      assert a + b == a;
    }
  }

  /** The best-odds map is the fold of all quotes, bookmaker by bookmaker. */
  lemma {:induction false} BestOddsFlattens(bookmakers: seq<Bookmaker>)
    ensures BestOdds(bookmakers) == AbsorbGames(map[], AllGames(bookmakers))
  {
    if bookmakers != [] {
      var init := bookmakers[..|bookmakers| - 1];
      BestOddsFlattens(init);
      AbsorbGamesAppend(map[], AllGames(init), bookmakers[|bookmakers| - 1].games);
    }
  }

  /** A game is in the flattened list exactly when some bookmaker quotes it. */
  lemma {:induction false} AllGamesAreQuotes(bookmakers: seq<Bookmaker>)
    ensures (set g | g in AllGames(bookmakers)) == Quotes(bookmakers)
  {
    if bookmakers != [] {
      var n := |bookmakers| - 1;
      var init := bookmakers[..n];
      AllGamesAreQuotes(init);
      forall g | g in Quotes(bookmakers)
        ensures g in AllGames(bookmakers)
      {
        var i, j :| 0 <= i < |bookmakers| && 0 <= j < |bookmakers[i].games| && bookmakers[i].games[j] == g;
        if i < n {
          assert init[i] == bookmakers[i];
          assert g in Quotes(init);
        } else {
          assert g in bookmakers[n].games;
        }
      }
      forall g | g in AllGames(bookmakers)
        ensures g in Quotes(bookmakers)
      {
        if g in AllGames(init) {
          assert g in Quotes(init);
          var i, j :| 0 <= i < |init| && 0 <= j < |init[i].games| && init[i].games[j] == g;
          assert bookmakers[i] == init[i];
        } else {
          assert g in bookmakers[n].games;
          var j :| 0 <= j < |bookmakers[n].games| && bookmakers[n].games[j] == g;
        }
      }
    }
  }

  /** The aggregation meets its contract: keys are exactly the quoted IDs, and each
      field is the per-field maximum over the quotes for that ID. */
  lemma BestOddsIsPerFieldMaximum(bookmakers: seq<Bookmaker>)
    ensures IsBestOdds(BestOdds(bookmakers), Quotes(bookmakers))
  {
    BestOddsFlattens(bookmakers);
    AllGamesAreQuotes(bookmakers);
    AbsorbGamesSpec(map[], AllGames(bookmakers));
  }

  /** A set of quotes has at most one best-odds view. */
  lemma BestOddsUnique(b1: map<string, Odds>, b2: map<string, Odds>, quotes: set<Game>)
    requires IsBestOdds(b1, quotes) && IsBestOdds(b2, quotes)
    ensures b1 == b2
  {
    forall id | id in b1
      ensures b1[id] == b2[id]
    {
      forall k
        ensures Price(b1[id], k) == Price(b2[id], k)
      {
        var g1 :| g1 in quotes && g1.id == id && Price(g1.odds, k) == Price(b1[id], k);
        var g2 :| g2 in quotes && g2.id == id && Price(g2.odds, k) == Price(b2[id], k);
      }
      OddsExtensional(b1[id], b2[id]);
    }
  }

  /** The map has an entry for exactly the game IDs some bookmaker quotes. */
  lemma BestOddsKeys(bookmakers: seq<Bookmaker>, id: string)
    ensures id in BestOdds(bookmakers) <==>
      exists i, j :: 0 <= i < |bookmakers| && 0 <= j < |bookmakers[i].games| && bookmakers[i].games[j].id == id
  {
    BestOddsIsPerFieldMaximum(bookmakers);
    if id in BestOdds(bookmakers) {
      var g :| g in Quotes(bookmakers) && g.id == id;
      var i, j :| 0 <= i < |bookmakers| && 0 <= j < |bookmakers[i].games| && bookmakers[i].games[j] == g;
    }
  }

  /** No bookmaker's quote beats the stored best for its game, outcome by outcome. */
  lemma BestOddsDominates(bookmakers: seq<Bookmaker>, i: int, j: int)
    requires 0 <= i < |bookmakers| && 0 <= j < |bookmakers[i].games|
    ensures bookmakers[i].games[j].id in BestOdds(bookmakers)
    ensures var game := bookmakers[i].games[j];
            var best := BestOdds(bookmakers)[game.id];
            game.odds.win <= best.win && game.odds.draw <= best.draw && game.odds.lose <= best.lose
  {
    BestOddsIsPerFieldMaximum(bookmakers);
    var game := bookmakers[i].games[j];
    assert game in Quotes(bookmakers);
    assert Price(game.odds, Win) <= Price(BestOdds(bookmakers)[game.id], Win);
    assert Price(game.odds, Draw) <= Price(BestOdds(bookmakers)[game.id], Draw);
    assert Price(game.odds, Lose) <= Price(BestOdds(bookmakers)[game.id], Lose);
  }

  /** Each stored price was offered by some bookmaker for that game; different fields
      may come from different bookmakers. */
  lemma BestOddsAttained(bookmakers: seq<Bookmaker>, id: string, k: Outcome)
    requires id in BestOdds(bookmakers)
    ensures exists i, j ::
              && 0 <= i < |bookmakers| && 0 <= j < |bookmakers[i].games|
              && bookmakers[i].games[j].id == id
              && Price(bookmakers[i].games[j].odds, k) == Price(BestOdds(bookmakers)[id], k)
  {
    BestOddsIsPerFieldMaximum(bookmakers);
    var g :| g in Quotes(bookmakers) && g.id == id && Price(g.odds, k) == Price(BestOdds(bookmakers)[id], k);
    var i, j :| 0 <= i < |bookmakers| && 0 <= j < |bookmakers[i].games| && bookmakers[i].games[j] == g;
  }

  /** A game for which every quote carries the same odds (in particular a game quoted
      once) keeps those odds unchanged. */
  lemma SingleQuotePassesThrough(bookmakers: seq<Bookmaker>, i: int, j: int)
    requires 0 <= i < |bookmakers| && 0 <= j < |bookmakers[i].games|
    requires forall i', j' ::
               && 0 <= i' < |bookmakers| && 0 <= j' < |bookmakers[i'].games|
               && bookmakers[i'].games[j'].id == bookmakers[i].games[j].id
               ==> bookmakers[i'].games[j'].odds == bookmakers[i].games[j].odds
    ensures var game := bookmakers[i].games[j];
            game.id in BestOdds(bookmakers) && BestOdds(bookmakers)[game.id] == game.odds
  {
    BestOddsIsPerFieldMaximum(bookmakers);
    var game := bookmakers[i].games[j];
    var best := BestOdds(bookmakers);
    assert game in Quotes(bookmakers);
    forall k
      ensures Price(best[game.id], k) == Price(game.odds, k)
    {
      var g :| g in Quotes(bookmakers) && g.id == game.id && Price(g.odds, k) == Price(best[game.id], k);
      var i', j' :| 0 <= i' < |bookmakers| && 0 <= j' < |bookmakers[i'].games| && bookmakers[i'].games[j'] == g;
    }
    OddsExtensional(best[game.id], game.odds);
  }

  /** The map depends only on which quotes were made, not on the order of bookmakers or
      of their games, nor on how often a quote is repeated. */
  lemma OrderIndependent(b1: seq<Bookmaker>, b2: seq<Bookmaker>)
    requires Quotes(b1) == Quotes(b2)
    ensures BestOdds(b1) == BestOdds(b2)
  {
    BestOddsIsPerFieldMaximum(b1);
    BestOddsIsPerFieldMaximum(b2);
    BestOddsUnique(BestOdds(b1), BestOdds(b2), Quotes(b1));
  }

  /** Reordering the bookmaker list leaves the map unchanged. */
  lemma BookmakerOrderIrrelevant(b1: seq<Bookmaker>, b2: seq<Bookmaker>)
    requires multiset(b1) == multiset(b2)
    ensures BestOdds(b1) == BestOdds(b2)
  {
    forall g | g in Quotes(b1)
      ensures g in Quotes(b2)
    {
      QuoteMoves(b1, b2, g);
    }
    forall g | g in Quotes(b2)
      ensures g in Quotes(b1)
    {
      QuoteMoves(b2, b1, g);
    }
    OrderIndependent(b1, b2);
  }

  /** A quote of b1 is a quote of any list holding the same bookmakers. */
  lemma QuoteMoves(b1: seq<Bookmaker>, b2: seq<Bookmaker>, g: Game)
    requires multiset(b1) == multiset(b2)
    requires g in Quotes(b1)
    ensures g in Quotes(b2)
  {
    var i, j :| 0 <= i < |b1| && 0 <= j < |b1[i].games| && b1[i].games[j] == g;
    assert b1[i] in multiset(b2);
    var i' :| 0 <= i' < |b2| && b2[i'] == b1[i];
    assert b2[i'].games[j] == g;
  }

  /** Ingesting the same bookmaker collection twice gives the same map as ingesting it once. */
  lemma RepeatedInputSameMap(bookmakers: seq<Bookmaker>)
    ensures BestOdds(bookmakers + bookmakers) == BestOdds(bookmakers)
  {
    var both := bookmakers + bookmakers;
    forall g | g in Quotes(both)
      ensures g in Quotes(bookmakers)
    {
      var i, j :| 0 <= i < |both| && 0 <= j < |both[i].games| && both[i].games[j] == g;
      var i' := if i < |bookmakers| then i else i - |bookmakers|;
      assert both[i] == bookmakers[i'];
    }
    forall g | g in Quotes(bookmakers)
      ensures g in Quotes(both)
    {
      var i, j :| 0 <= i < |bookmakers| && 0 <= j < |bookmakers[i].games| && bookmakers[i].games[j] == g;
      assert both[i] == bookmakers[i];
    }
    OrderIndependent(both, bookmakers);
  }
}
