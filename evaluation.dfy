/**
 * The per-ticker decision: from one ticker's price history and fundamentals
 * (or the failure of fetching them), the metrics, the chain of filters and,
 * for a ticker that passes them all, the scored result row.
 */
module Evaluation {
  import opened Wrappers
  import opened Presets

  /** A market price; the data provider's prices are positive, so the metric divisions are defined. */
  type Price = r: real | r > 0.0 witness 1.0

  /** One daily bar of a price history: its closing price and its high. */
  datatype Bar = Bar(close: Price, high: Price)

  /** The fundamentals of a ticker; either field may be absent. The yield is a fraction (0.03 is 3%). */
  datatype Info = Info(trailingPe: Option<real>, dividendYield: Option<real>)

  /**
   * What the data provider returned for one ticker: the price history and the
   * fundamentals, each None when fetching it raised an exception.
   */
  datatype Quote = Quote(history: Option<seq<Bar>>, info: Option<Info>)

  /** The metrics derived from a price history. */
  datatype Metrics = Metrics(
    priceNow: Price,  // the last close
    perf: real,       // change from the 15th-last close to the last close, in percent
    high: Price,      // the highest high of the whole history
    dist: real        // distance of the last close from that high, in percent
  )

  /** One row of the result table. */
  datatype Record = Record(
    ticker: string,
    name: string,
    price: real,
    perf: real,
    dist: real,
    divPct: real,
    pe: real,
    score: real
  )

  /** Why a ticker was left out. */
  datatype Reason = TooFewBars | NoPe | DividendTooLow | PerformanceTooLow | TooCloseToHigh | PeTooHigh

  /** The decision for one ticker: a row, a skip with its reason, or a caught fetch failure. */
  datatype Outcome = Included(rec: Record) | Skipped(reason: Reason) | FetchFailed

  /** Histories shorter than this are skipped. */
  const MinBars: nat := 30

  /** The performance compares the last close with the close this many bars from the end (counting the last). */
  const LookbackBars: nat := 15

  function Abs(x: real): (r: real)
    ensures r >= 0.0 && (r == x || r == -x)
  {
    if x < 0.0 then -x else x
  }

  /** The highest high of a non-empty history. */
  function MaxHigh(h: seq<Bar>): (m: Price)
    requires |h| > 0
    ensures forall i :: 0 <= i < |h| ==> h[i].high <= m
    ensures exists i :: 0 <= i < |h| && h[i].high == m
  {
    if |h| == 1 then h[0].high
    else
      var rest := MaxHigh(h[1..]);
      if h[0].high >= rest then h[0].high else rest
  }

  /**
   * The metrics of a history long enough for the lookback read. The two
   * percentages are characterised by what they mean: growing the reference
   * close (or the high) by that percentage gives the last close.
   */
  function ComputeMetrics(h: seq<Bar>): (m: Metrics)
    requires |h| >= LookbackBars
    ensures m.priceNow == h[|h| - 1].close
    ensures m.priceNow == h[|h| - LookbackBars].close * (1.0 + m.perf / 100.0)
    ensures forall i :: 0 <= i < |h| ==> h[i].high <= m.high
    ensures exists i :: 0 <= i < |h| && h[i].high == m.high
    ensures m.priceNow == m.high * (1.0 + m.dist / 100.0)
    ensures m.perf >= 0.0 <==> m.priceNow >= h[|h| - LookbackBars].close
  {
    var now := h[|h| - 1].close;
    var reference := h[|h| - LookbackBars].close;
    var high := MaxHigh(h);
    Metrics(now, (now / reference - 1.0) * 100.0, high, (now / high - 1.0) * 100.0)
  }

  /** The dividend yield in percent as reported and scored: an absent yield counts as 0%. */
  function DividendPct(info: Info): real {
    match info.dividendYield
    case Some(d) => d * 100.0
    case None => 0.0
  }

  /** The composite score: a weighted sum of momentum, distance from the high, yield and P/E headroom. */
  function Score(perf: real, dist: real, divPct: real, pe: real, cfg: Config): real {
    perf * cfg.wPerf + Abs(dist) * cfg.wDist + divPct * cfg.wDiv + (cfg.maxPe - pe) * cfg.wPe
  }

  /** The inclusion condition, all filters at once. */
  predicate Passes(m: Metrics, info: Info, cfg: Config) {
    && info.trailingPe.Some?
    && info.trailingPe.value <= cfg.maxPe
    && m.perf >= cfg.minPerf
    && (cfg.useDiv ==> info.dividendYield.Some? && info.dividendYield.value * 100.0 >= cfg.minDiv)
    && (cfg.useDist ==> m.dist <= -cfg.minDist)
  }

  /**
   * The decision for one ticker, in the order the screener takes its steps:
   * the history fetch, the sufficiency guard, the metrics, the fundamentals
   * fetch and then the filters one by one.
   */
  function Evaluate(ticker: string, name: string, q: Quote, cfg: Config): (o: Outcome)
    ensures o.Included? <==>
      q.history.Some? && |q.history.value| >= MinBars && q.info.Some? &&
      Passes(ComputeMetrics(q.history.value), q.info.value, cfg)
    ensures q.history.None? ==> o == FetchFailed
    ensures q.history.Some? && |q.history.value| < MinBars ==> o == Skipped(TooFewBars)
    ensures o == FetchFailed <==> q.history.None? || (|q.history.value| >= MinBars && q.info.None?)
    ensures o.Included? ==>
      var m := ComputeMetrics(q.history.value);
      var info := q.info.value;
      && o.rec.ticker == ticker
      && o.rec.name == name
      && o.rec.price == m.priceNow
      && o.rec.perf == m.perf
      && o.rec.dist == m.dist
      && o.rec.divPct == DividendPct(info)
      && o.rec.pe == info.trailingPe.value
      && o.rec.score == Score(m.perf, m.dist, o.rec.divPct, o.rec.pe, cfg)
  {
    match q.history
    case None => FetchFailed
    case Some(h) =>
      if |h| < MinBars then Skipped(TooFewBars)
      else
        var m := ComputeMetrics(h);
        match q.info
        case None => FetchFailed
        case Some(info) =>
          if info.trailingPe.None? then Skipped(NoPe)
          else if cfg.useDiv && (info.dividendYield.None? || info.dividendYield.value * 100.0 < cfg.minDiv) then
            Skipped(DividendTooLow)
          else if m.perf < cfg.minPerf then Skipped(PerformanceTooLow)
          else if cfg.useDist && m.dist > -cfg.minDist then Skipped(TooCloseToHigh)
          else if info.trailingPe.value > cfg.maxPe then Skipped(PeTooHigh)
          else
            var pe := info.trailingPe.value;
            var divPct := DividendPct(info);
            Included(Record(ticker, name, m.priceNow, m.perf, m.dist, divPct, pe,
                            Score(m.perf, m.dist, divPct, pe, cfg)))
  }

  /** Every included row honours each threshold that is switched on. */
  lemma IncludedHonoursThresholds(ticker: string, name: string, q: Quote, cfg: Config)
    requires Evaluate(ticker, name, q, cfg).Included?
    ensures var r := Evaluate(ticker, name, q, cfg).rec;
      && r.pe <= cfg.maxPe
      && r.perf >= cfg.minPerf
      && (cfg.useDiv ==> r.divPct >= cfg.minDiv)
      && (cfg.useDist ==> r.dist <= -cfg.minDist)
  {
  }

  /**
   * The valuation term of an included row is never negative, so with a
   * non-negative P/E weight the score is at least the sum of the other three terms.
   */
  lemma ValuationTermNonNegative(ticker: string, name: string, q: Quote, cfg: Config)
    requires Evaluate(ticker, name, q, cfg).Included?
    ensures var r := Evaluate(ticker, name, q, cfg).rec;
      cfg.maxPe - r.pe >= 0.0 &&
      (cfg.wPe >= 0.0 ==> r.score >= r.perf * cfg.wPerf + Abs(r.dist) * cfg.wDist + r.divPct * cfg.wDiv)
  {
  }

  /**
   * With the dividend filter switched off a missing yield does not exclude the
   * ticker: the outcome is the same as for a yield of 0%, which is what the
   * row reports and scores.
   */
  lemma DisabledDividendFilter(ticker: string, name: string, h: Option<seq<Bar>>, pe: Option<real>, cfg: Config)
    requires !cfg.useDiv
    ensures Evaluate(ticker, name, Quote(h, Some(Info(pe, None))), cfg)
         == Evaluate(ticker, name, Quote(h, Some(Info(pe, Some(0.0)))), cfg)
    ensures Evaluate(ticker, name, Quote(h, Some(Info(pe, None))), cfg).Included? ==>
      Evaluate(ticker, name, Quote(h, Some(Info(pe, None))), cfg).rec.divPct == 0.0
  {
  }

  /** A history too short for the guard is skipped whatever the fundamentals say; they are never consulted. */
  lemma ShortHistoryIgnoresFundamentals(ticker: string, name: string, h: seq<Bar>, a: Option<Info>, b: Option<Info>, cfg: Config)
    requires |h| < MinBars
    ensures Evaluate(ticker, name, Quote(Some(h), a), cfg) == Evaluate(ticker, name, Quote(Some(h), b), cfg) == Skipped(TooFewBars)
  {
  }

  /**
   * When every bar's high is at least its close, the last close is at most the
   * window's high, so the distance lies in (-100%, 0%] and its absolute value,
   * which the score uses, is its negation.
   */
  lemma DistanceRange(h: seq<Bar>)
    requires |h| >= LookbackBars
    requires forall i :: 0 <= i < |h| ==> h[i].close <= h[i].high
    ensures -100.0 < ComputeMetrics(h).dist <= 0.0
    ensures Abs(ComputeMetrics(h).dist) == -ComputeMetrics(h).dist
  {
  }
}
