/**
 * One screening run: resolve the configuration, build the universe, decide
 * every ticker of it, collect the included rows and rank them by score.
 * The data provider is a parameter: `market(t)` is what fetching ticker t
 * returned, or the failure it raised.
 */
module Screener {
  import opened Wrappers
  import opened Presets
  import opened Universe
  import opened Evaluation
  import opened Ranking

  /** The rows produced for the tickers in `keys` of the universe. */
  function AcceptedAmong(keys: set<string>, universe: map<string, string>, market: string -> Quote, cfg: Config): (s: set<Record>)
    ensures forall r :: r in s ==> r.ticker in keys && r.ticker in universe
  {
    set t | t in keys && t in universe && Evaluate(t, universe[t], market(t), cfg).Included?
      :: Evaluate(t, universe[t], market(t), cfg).rec
  }

  /** Deciding one more ticker adds its row, if it has one, and nothing else. */
  lemma AcceptedAmongStep(done: set<string>, t: string, universe: map<string, string>, market: string -> Quote, cfg: Config)
    requires t !in done && t in universe
    ensures var o := Evaluate(t, universe[t], market(t), cfg);
      multiset(AcceptedAmong(done + {t}, universe, market, cfg))
        == multiset(AcceptedAmong(done, universe, market, cfg)) + (if o.Included? then multiset{o.rec} else multiset{})
  {
  }

  /**
   * The screening loop: every ticker of the universe is decided once; a fetch
   * failure is caught and the loop goes on with the next ticker. The rows
   * collected are exactly the accepted ones, each once, in some order.
   */
  method Screen(universe: map<string, string>, market: string -> Quote, cfg: Config) returns (results: seq<Record>)
    ensures multiset(results) == multiset(AcceptedAmong(universe.Keys, universe, market, cfg))
    ensures forall r :: r in results ==> r.ticker in universe
    ensures universe == map[] ==> results == []
  {
    results := [];
    var remaining := universe.Keys;
    ghost var done: set<string> := {};
    while remaining != {}
      invariant remaining !! done && remaining + done == universe.Keys
      invariant multiset(results) == multiset(AcceptedAmong(done, universe, market, cfg))
      decreases |remaining|
    {
      var ticker :| ticker in remaining;
      var outcome := Evaluate(ticker, universe[ticker], market(ticker), cfg);
      if outcome.Included? {
        results := results + [outcome.rec];
      }
      AcceptedAmongStep(done, ticker, universe, market, cfg);
      remaining := remaining - {ticker};
      done := done + {ticker};
    }
    assert done == universe.Keys;
    forall r | r in results ensures r.ticker in universe {
      assert r in multiset(results);
    }
  }

  /** A ticker of the universe has a row exactly when its own decision includes it. */
  lemma AcceptedIff(t: string, universe: map<string, string>, market: string -> Quote, cfg: Config)
    requires t in universe
    ensures (exists r :: r in AcceptedAmong(universe.Keys, universe, market, cfg) && r.ticker == t)
        <==> Evaluate(t, universe[t], market(t), cfg).Included?
  {
  }

  /**
   * Failure isolation: whatever fetching ticker u returns instead (a failed
   * history fetch, a failed fundamentals fetch, other data), every other
   * ticker keeps exactly its rows; and when u's new decision includes nothing,
   * only u's row (if it had one) is gone.
   */
  lemma FailureIsolation(u: string, q: Quote, universe: map<string, string>, market: string -> Quote, cfg: Config)
    ensures var changed := (t: string) => if t == u then q else market(t);
      (set r | r in AcceptedAmong(universe.Keys, universe, changed, cfg) && r.ticker != u)
        == (set r | r in AcceptedAmong(universe.Keys, universe, market, cfg) && r.ticker != u)
    ensures var changed := (t: string) => if t == u then q else market(t);
      (u !in universe || !Evaluate(u, universe[u], q, cfg).Included?) ==>
        AcceptedAmong(universe.Keys, universe, changed, cfg)
          == set r | r in AcceptedAmong(universe.Keys, universe, market, cfg) && r.ticker != u
  {
  }

  /**
   * A whole run: the result table is the accepted rows of the merged
   * universe, each once, ordered by score with the highest first.
   */
  method Run(mode: Mode, indices: seq<Index>, lists: Constituents, market: string -> Quote) returns (table: seq<Record>)
    ensures var universe := Merged(MergeOrder, indices, lists);
      multiset(table) == multiset(AcceptedAmong(universe.Keys, universe, market, Resolve(mode)))
    ensures SortedByScore(table)
    ensures forall r :: r in table ==> exists i :: i in indices && r.ticker in lists.Of(i)
    ensures indices == [] ==> table == []
  {
    var cfg := Resolve(mode);
    var tickerMap := BuildUniverse(indices, lists);
    var results := Screen(tickerMap, market, cfg);
    table := Rank(results);
    forall r | r in table ensures exists i :: i in indices && r.ticker in lists.Of(i) {
      assert r in multiset(table);
      assert r in multiset(results);
    }
  }
}
