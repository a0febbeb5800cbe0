/**
 * The fundamentals stage: the stock report, a digest of its figures, one
 * reasoning call and the strict-then-salvage parse of the answer. Unlike the
 * other stages it has no exception handler of its own, so a missing report
 * field, a failed call or a failed parse escapes to the caller.
 */
module FinancialAgent {
  import opened Common
  import opened DataFetcher
  import opened AgentCommon

  /** `{"error", "status": "failed"}` or the stage's success dictionary. */
  datatype FinancialResult =
    | FinancialOk(ticker: string, rawData: StockData, analysis: map<string, Json>, summary: FinancialDigest)
    | FinancialFailed(error: Option<string>)

  /** The figures the digest interpolates, three of them formatted with
      `format_large_number`. */
  function DigestOf(ticker: string, d: StockData, parse: string -> Option<real>): FinancialDigest
    requires d.StockOk?
  {
    var fields := d.financials.fields;
    FinancialDigest(ticker, d.company, d.financials, d.performance, d.benchmark, d.volatility,
                    FormatLargeNumber(Get(fields, MarketCap, NotAvailable), parse),
                    FormatLargeNumber(Get(fields, Revenue, NotAvailable), parse),
                    FormatLargeNumber(Get(fields, FreeCashflow, NotAvailable), parse))
  }

  /** `run_financial_agent(ticker)`; `Raised` is an exception escaping it. */
  function RunFinancialAgent(ticker: string, market: Market, volatility: seq<real> -> real,
                             parse: string -> Option<real>, ai: Reasoning): Outcome<FinancialResult>
  {
    var raw := GetStockData(ticker, market, volatility);
    if raw.Status() == Some("failed") then Returned(FinancialFailed(raw.Error()))
    else if !raw.StockOk? then Raised("'financials'")
    else
      var digest := DigestOf(ticker, raw, parse);
      match Consult(ai, FundamentalsPrompt(digest))
      case Raised(e) => Raised(e)
      case Returned(analysis) => Returned(FinancialOk(ticker, raw, analysis, digest))
  }

  /** A failed report short-circuits with its error and no reasoning call
      (the result does not depend on `ai`); the status-less empty-history
      report is not caught by that test and fails later on
      `raw_data["financials"]`, escaping as a KeyError. */
  lemma {:induction false} FinancialFailurePaths(ticker: string, market: Market, volatility: seq<real> -> real,
                              parse: string -> Option<real>, ai: Reasoning)
    ensures var raw := GetStockData(ticker, market, volatility);
      var r := RunFinancialAgent(ticker, market, volatility, parse, ai);
      && (raw.StockFailed? ==> r == Returned(FinancialFailed(Some(raw.error))))
      && (raw.NoPriceData? ==> r == Raised("'financials'"))
  {
  }

  /** A success carries the ticker, the report itself, the digest of that
      report and the object the response parsed to; any parse failure of the
      salvaged text escapes unchanged. Conversely, on a full report the stage
      succeeds exactly when the reasoning call and its parse return, with
      that analysis, and otherwise lets their error escape. */
  lemma {:induction false} FinancialSuccess(ticker: string, market: Market, volatility: seq<real> -> real,
                         parse: string -> Option<real>, ai: Reasoning)
    ensures var raw := GetStockData(ticker, market, volatility);
      var r := RunFinancialAgent(ticker, market, volatility, parse, ai);
      && (r.Returned? && r.value.FinancialOk? ==>
            && raw.StockOk? && r.value.ticker == ticker && r.value.rawData == raw
            && r.value.summary == DigestOf(ticker, raw, parse)
            && ai.complete(FundamentalsPrompt(r.value.summary)).Returned?
            && ParseResponse(ai.complete(FundamentalsPrompt(r.value.summary)).value, ai.loads)
               == Returned(JObj(r.value.analysis)))
      && (raw.StockOk? ==>
            var prompt := FundamentalsPrompt(DigestOf(ticker, raw, parse));
            var answer := ai.complete(prompt);
            answer.Returned? && ai.loads(answer.value).Raised? && ai.loads(Salvage(answer.value)).Raised?
            ==> r == Raised(ai.loads(Salvage(answer.value)).error))
      && (raw.StockOk? ==>
            var consulted := Consult(ai, FundamentalsPrompt(DigestOf(ticker, raw, parse)));
            && (consulted.Returned? ==>
                  r == Returned(FinancialOk(ticker, raw, consulted.value, DigestOf(ticker, raw, parse))))
            && (consulted.Raised? ==> r == Raised(consulted.error)))
  {
  }
}
