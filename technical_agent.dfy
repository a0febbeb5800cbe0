/**
 * The technical stage: the indicator engine over a price history (handed
 * over by the caller, or fetched when none is given), one reasoning call
 * and the strict-then-salvage parse. Every exception becomes a failed
 * result carrying the ticker and its message; an engine failure is returned
 * without the ticker.
 */
module TechnicalAgent {
  import opened Common
  import opened DataFetcher
  import opened TechnicalIndicators
  import opened AgentCommon

  /** `str(KeyError("price_history"))`: a report without a price history. */
  const MissingHistoryError: string := "'price_history'"

  datatype TechnicalResult =
    | TechnicalOk(ticker: string, indicators: IndicatorSet, analysis: map<string, Json>)
    | TechnicalFailed(failedTicker: Option<string>, error: string)

  /** The history the stage works on: the one passed in, else the report's. */
  function HistoryFor(ticker: string, priceHistory: Option<PriceSeries>, market: Market,
                      volatility: seq<real> -> real): Outcome<PriceSeries>
  {
    match priceHistory
    case Some(h) => Returned(h)
    case None =>
      var raw := GetStockData(ticker, market, volatility);
      if raw.StockOk? then Returned(raw.priceHistory) else Raised(MissingHistoryError)
  }

  /** `run_technical_agent(ticker, price_history)`. */
  function RunTechnicalAgent(ticker: string, priceHistory: Option<PriceSeries>, market: Market,
                             volatility: seq<real> -> real, num: Numerics, ai: Reasoning): TechnicalResult
  {
    match HistoryFor(ticker, priceHistory, market, volatility)
    case Raised(e) => TechnicalFailed(Some(ticker), e)
    case Returned(h) =>
      match Indicators(h, num)
      case IndicatorsFailed(e) => TechnicalFailed(None, e)
      case IndicatorsOk(values) =>
        match Consult(ai, TechnicalPrompt(ticker, values))
        case Raised(e) => TechnicalFailed(Some(ticker), e)
        case Returned(analysis) => TechnicalOk(ticker, values, analysis)
  }

  // ---------------------------------------------------------------------
  // Properties
  // ---------------------------------------------------------------------

  /** A history handed over is used as given: the market is not consulted. */
  lemma {:induction false} HistoryGiven(ticker: string, h: PriceSeries, market: Market, other: Market,
                     volatility: seq<real> -> real, num: Numerics, ai: Reasoning)
    ensures RunTechnicalAgent(ticker, Some(h), market, volatility, num, ai)
         == RunTechnicalAgent(ticker, Some(h), other, volatility, num, ai)
  {
  }

  /** Without a history the stage behaves as if it had been given the
      report's, and a report without one fails with the KeyError. */
  lemma {:induction false} HistoryFetched(ticker: string, market: Market, volatility: seq<real> -> real,
                       num: Numerics, ai: Reasoning)
    ensures var raw := GetStockData(ticker, market, volatility);
      var r := RunTechnicalAgent(ticker, None, market, volatility, num, ai);
      && (raw.StockOk? ==> r == RunTechnicalAgent(ticker, Some(raw.priceHistory), market, volatility, num, ai))
      && (!raw.StockOk? ==> r == TechnicalFailed(Some(ticker), MissingHistoryError))
  {
    var raw := GetStockData(ticker, market, volatility);
    assert HistoryFor(ticker, None, market, volatility)
        == if raw.StockOk? then Returned(raw.priceHistory) else Raised(MissingHistoryError);
  }

  /** A history handed over that is the one the market would have given
      changes nothing. */
  lemma {:induction false} HandedHistory(ticker: string, hist: Option<PriceSeries>, market: Market,
                      volatility: seq<real> -> real, num: Numerics, ai: Reasoning)
    requires hist.Some? ==> GetStockData(ticker, market, volatility).StockOk?
                            && hist.value == GetStockData(ticker, market, volatility).priceHistory
    ensures RunTechnicalAgent(ticker, hist, market, volatility, num, ai)
         == RunTechnicalAgent(ticker, None, market, volatility, num, ai)
  {
    HistoryFetched(ticker, market, volatility, num, ai);
  }

  /** An engine failure is passed on with its message and without a ticker;
      an empty history or one shorter than the volume window fails before
      any reasoning call. */
  lemma {:induction false} IndicatorFailurePropagates(ticker: string, h: PriceSeries, market: Market,
                                   volatility: seq<real> -> real, num: Numerics, ai: Reasoning)
    ensures var r := RunTechnicalAgent(ticker, Some(h), market, volatility, num, ai);
      && (Indicators(h, num).IndicatorsFailed? ==> r == TechnicalFailed(None, Indicators(h, num).error))
      && (|h| == 0 ==> r == TechnicalFailed(None, IndexOutOfBounds))
      && (0 < |h| < VolumeWindow ==> r == TechnicalFailed(None, NaNToIntError))
  {
    FailureIffShort(h, num);
  }

  /** Only the engine's early return leaves the ticker out: every failure
      caught afterwards names it, so a failure without a ticker means a
      history shorter than the volume window. */
  lemma {:induction false} UntickeredFailureIsShort(ticker: string, h: PriceSeries, market: Market,
                                                    volatility: seq<real> -> real, num: Numerics, ai: Reasoning)
    ensures var r := RunTechnicalAgent(ticker, Some(h), market, volatility, num, ai);
      r.TechnicalFailed? && r.failedTicker.None? ==> |h| < VolumeWindow
  {
    FailureIffShort(h, num);
  }

  /** A success returns the engine's indicator set unchanged, with the ticker
      and the object the answer parsed to. Conversely, once the engine
      returns, the stage succeeds exactly when the reasoning call and its
      parse return, and otherwise fails with the ticker and their message. */
  lemma {:induction false} TechnicalSuccess(ticker: string, h: PriceSeries, market: Market,
                         volatility: seq<real> -> real, num: Numerics, ai: Reasoning)
    ensures var r := RunTechnicalAgent(ticker, Some(h), market, volatility, num, ai);
      && (r.TechnicalOk? ==>
            && r.ticker == ticker && |h| >= VolumeWindow
            && Indicators(h, num) == IndicatorsOk(r.indicators)
            && Consult(ai, TechnicalPrompt(ticker, r.indicators)) == Returned(r.analysis))
      && (Indicators(h, num).IndicatorsOk? ==>
            var consulted := Consult(ai, TechnicalPrompt(ticker, Indicators(h, num).values));
            && (consulted.Returned? ==> r == TechnicalOk(ticker, Indicators(h, num).values, consulted.value))
            && (consulted.Raised? ==> r == TechnicalFailed(Some(ticker), consulted.error)))
      && (|h| >= VolumeWindow ==> Indicators(h, num).IndicatorsOk?)
  {
    FailureIffShort(h, num);
  }
}
