/**
 * The research pipeline: the four analyst stages in order (fundamentals,
 * news sentiment, technicals, filings), the fundamentals' price history
 * handed to the technical stage, the four signals collected with a NEUTRAL
 * default, and one synthesis call whose parsed answer is the
 * recommendation.
 *
 * Only the fundamentals stage can raise into the pipeline: the other three
 * catch every exception themselves. The synthesis call and its parse are
 * not guarded, so their failures escape the pipeline (`Raised`).
 */
module Orchestrator {
  import opened Common
  import opened DataFetcher
  import opened TechnicalIndicators
  import opened AgentCommon
  import opened VectorStore
  import opened FinancialAgent
  import opened SentimentAgent
  import opened TechnicalAgent
  import opened RagAgent

  const Neutral: Json := JStr("NEUTRAL")
  const FinancialFailurePrefix: string := "Financial agent failed: "

  /** Everything outside the pipeline it reads from. */
  datatype World = World(
    market: Market,
    volatility: seq<real> -> real,
    parse: string -> Option<real>,
    num: Numerics,
    edgar: Edgar,
    ret: Retrieval,
    ai: Reasoning)

  /** A stage's entry in `agent_results`; `Crashed` is the `{"status":
      "failed"}` placeholder the pipeline stores for a stage that raised. */
  datatype StageReport =
    | FinancialStage(financial: FinancialResult)
    | SentimentStage(sentiment: SentimentResult)
    | TechnicalStage(technical: TechnicalResult)
    | RagStage(rag: RagResult)
    | Crashed

  datatype FinalResult = FinalResult(
    ticker: string,
    companyName: Json,
    currentPrice: Json,
    signals: map<string, Json>,
    recommendation: Json,
    agentResults: map<string, StageReport>,
    errors: seq<string>)

  /** `report.get("analysis", {})`. */
  function AnalysisIn(report: StageReport): map<string, Json> {
    match report
    case FinancialStage(FinancialOk(_, _, analysis, _)) => analysis
    case SentimentStage(SentimentOk(_, _, analysis)) => analysis
    case TechnicalStage(TechnicalOk(_, _, analysis)) => analysis
    case RagStage(RagOk(_, _, _, analysis)) => analysis
    case _ => map[]
  }

  /** `report.get("raw_data", {})`, when it is there. */
  function RawDataIn(report: StageReport): Option<StockData> {
    match report
    case FinancialStage(FinancialOk(_, raw, _, _)) => Some(raw)
    case _ => None
  }

  /** `raw_data.get("price_history")`. */
  function HistoryIn(report: StageReport): Option<PriceSeries> {
    match RawDataIn(report)
    case Some(StockOk(_, _, _, _, _, _, history)) => Some(history)
    case _ => None
  }

  /** `company.get("name", ticker)`. */
  function CompanyName(report: StageReport, ticker: string): Json {
    match RawDataIn(report)
    case Some(StockOk(_, company, _, _, _, _, _)) => company.name
    case _ => JStr(ticker)
  }

  /** `company.get("sector", "N/A")`. */
  function Sector(report: StageReport): Json {
    match RawDataIn(report)
    case Some(StockOk(_, company, _, _, _, _, _)) => company.sector
    case _ => NotAvailable
  }

  /** `financials.get("current_price", "N/A")`. */
  function CurrentPrice(report: StageReport): Json {
    match RawDataIn(report)
    case Some(StockOk(_, _, financials, _, _, _, _)) => JNum(financials.currentPrice)
    case _ => NotAvailable
  }

  /** The fundamentals' entry: its result, or the placeholder when it raised. */
  function FinancialReport(fin: Outcome<FinancialResult>): StageReport {
    if fin.Raised? then Crashed else FinancialStage(fin.value)
  }

  /** The error list: one entry when the fundamentals stage raised. */
  function ErrorsOf(fin: Outcome<FinancialResult>): seq<string> {
    if fin.Raised? then [FinancialFailurePrefix + fin.error] else []
  }

  /** The four stage reports, by the key the pipeline stores them under. */
  function Assemble(financial: StageReport, sentiment: SentimentResult, technical: TechnicalResult,
                    rag: RagResult): (m: map<string, StageReport>)
    ensures m.Keys == {"financial", "sentiment", "technical", "rag"}
  {
    map["financial" := financial, "sentiment" := SentimentStage(sentiment),
        "technical" := TechnicalStage(technical), "rag" := RagStage(rag)]
  }

  /** The signals: each stage's own signal field, NEUTRAL when it is absent. */
  function Signals(results: map<string, StageReport>): map<string, Json>
    requires results.Keys == {"financial", "sentiment", "technical", "rag"}
  {
    map[
      "financial" := Get(AnalysisIn(results["financial"]), "fundamental_signal", Neutral),
      "sentiment" := Get(AnalysisIn(results["sentiment"]), "sentiment_signal", Neutral),
      "technical" := Get(AnalysisIn(results["technical"]), "technical_signal", Neutral),
      "sec" := Get(AnalysisIn(results["rag"]), "sec_signal", Neutral)]
  }

  function SynthesisOf(ticker: string, results: map<string, StageReport>): Prompt
    requires results.Keys == {"financial", "sentiment", "technical", "rag"}
  {
    SynthesisPrompt(ticker, CompanyName(results["financial"], ticker), CurrentPrice(results["financial"]),
                    Sector(results["financial"]), Signals(results),
                    [AnalysisIn(results["financial"]), AnalysisIn(results["sentiment"]),
                     AnalysisIn(results["technical"]), AnalysisIn(results["rag"])])
  }

  /** The tail of the pipeline: the synthesis call, its parse and the report. */
  function Synthesize(ticker: string, results: map<string, StageReport>, errors: seq<string>,
                      ai: Reasoning): Outcome<FinalResult>
    requires results.Keys == {"financial", "sentiment", "technical", "rag"}
  {
    match ai.complete(SynthesisOf(ticker, results))
    case Raised(e) => Raised(e)
    case Returned(text) =>
      match ParseResponse(text, ai.loads)
      case Raised(e) => Raised(e)
      case Returned(recommendation) =>
        Returned(FinalResult(ticker, CompanyName(results["financial"], ticker), CurrentPrice(results["financial"]),
                             Signals(results), recommendation, results, errors))
  }

  /** `run_orchestrator(ticker)` against the store as it was before. */
  function Orchestrate(collections: map<string, seq<Entry>>, input: string, w: World): Outcome<FinalResult> {
    var ticker := Strip(Upper(input));
    var fin := RunFinancialAgent(ticker, w.market, w.volatility, w.parse, w.ai);
    var financial := FinancialReport(fin);
    var results := Assemble(financial, Sentiment(ticker, w.market, w.ai),
                            RunTechnicalAgent(ticker, HistoryIn(financial), w.market, w.volatility, w.num, w.ai),
                            RagOutcome(collections, ticker, w.edgar, w.ret, w.ai));
    Synthesize(ticker, results, ErrorsOf(fin), w.ai)
  }

  /** The pipeline: the stages, then the synthesis. */
  method RunOrchestrator(store: Store, input: string, w: World) returns (r: Outcome<FinalResult>)
    modifies store
    ensures r == Orchestrate(old(store.collections), input, w)
    ensures store.collections == RagStore(old(store.collections), Strip(Upper(input)), w.edgar, w.ret)
  {
    var ticker := Strip(Upper(input));
    var results, errors := RunStages(store, ticker, w);
    r := Synthesis(ticker, results, errors, w.ai);
  }

  /** The four guarded stages, filling the results and errors stage by stage. */
  method RunStages(store: Store, ticker: string, w: World) returns (results: map<string, StageReport>, errors: seq<string>)
    modifies store
    ensures var fin := RunFinancialAgent(ticker, w.market, w.volatility, w.parse, w.ai);
      && results == Assemble(FinancialReport(fin), Sentiment(ticker, w.market, w.ai),
                             RunTechnicalAgent(ticker, HistoryIn(FinancialReport(fin)), w.market, w.volatility, w.num, w.ai),
                             RagOutcome(old(store.collections), ticker, w.edgar, w.ret, w.ai))
      && errors == ErrorsOf(fin)
    ensures store.collections == RagStore(old(store.collections), ticker, w.edgar, w.ret)
  {
    results := map[];
    errors := [];

    var fin := RunFinancialAgent(ticker, w.market, w.volatility, w.parse, w.ai);
    if fin.Raised? {
      errors := errors + [FinancialFailurePrefix + fin.error];
      results := results["financial" := Crashed];
    } else {
      results := results["financial" := FinancialStage(fin.value)];
    }

    var sentiment := RunSentimentAgent(ticker, w.market, w.ai);
    results := results["sentiment" := SentimentStage(sentiment)];

    var history := HistoryIn(results["financial"]);
    var technical := RunTechnicalAgent(ticker, history, w.market, w.volatility, w.num, w.ai);
    results := results["technical" := TechnicalStage(technical)];

    var rag := RunRagAgent(store, ticker, w.edgar, w.ret, w.ai);
    results := results["rag" := RagStage(rag)];
    assert results == Assemble(FinancialReport(fin), sentiment, technical, rag);
  }

  /** The synthesis call and its parse. */
  method Synthesis(ticker: string, results: map<string, StageReport>, errors: seq<string>, ai: Reasoning)
    returns (r: Outcome<FinalResult>)
    requires results.Keys == {"financial", "sentiment", "technical", "rag"}
    ensures r == Synthesize(ticker, results, errors, ai)
  {
    var answer := ai.complete(SynthesisOf(ticker, results));
    if answer.Raised? {
      return Raised(answer.error);
    }
    var recommendation := ParseResponse(answer.value, ai.loads);
    if recommendation.Raised? {
      return Raised(recommendation.error);
    }
    r := Returned(FinalResult(ticker, CompanyName(results["financial"], ticker), CurrentPrice(results["financial"]),
                              Signals(results), recommendation.value, results, errors));
  }

  // ---------------------------------------------------------------------
  // Properties
  // ---------------------------------------------------------------------

  /** The pipeline's outcome is the synthesis over the four stage reports,
      each of them its stage's own result. */
  lemma {:induction false} OrchestrateStages(collections: map<string, seq<Entry>>, input: string, w: World)
    ensures var ticker := Strip(Upper(input));
      var fin := RunFinancialAgent(ticker, w.market, w.volatility, w.parse, w.ai);
      Orchestrate(collections, input, w)
        == Synthesize(ticker,
                      Assemble(FinancialReport(fin), Sentiment(ticker, w.market, w.ai),
                               RunTechnicalAgent(ticker, None, w.market, w.volatility, w.num, w.ai),
                               RagOutcome(collections, ticker, w.edgar, w.ret, w.ai)),
                      ErrorsOf(fin), w.ai)
  {
    HandoffTransparent(Strip(Upper(input)), w);
  }

  /** Handing the fundamentals' price history to the technical stage saves a
      fetch and nothing else: the technical result is the one the stage
      would have produced fetching the history itself. */
  lemma {:induction false} HandoffTransparent(ticker: string, w: World)
    ensures var fin := RunFinancialAgent(ticker, w.market, w.volatility, w.parse, w.ai);
      RunTechnicalAgent(ticker, HistoryIn(FinancialReport(fin)), w.market, w.volatility, w.num, w.ai)
        == RunTechnicalAgent(ticker, None, w.market, w.volatility, w.num, w.ai)
  {
    var fin := RunFinancialAgent(ticker, w.market, w.volatility, w.parse, w.ai);
    FinancialHistory(ticker, w);
    HandedHistory(ticker, HistoryIn(FinancialReport(fin)), w.market, w.volatility, w.num, w.ai);
  }

  /** The history a fundamentals report carries is the market's. */
  lemma {:induction false} FinancialHistory(ticker: string, w: World)
    ensures var fin := RunFinancialAgent(ticker, w.market, w.volatility, w.parse, w.ai);
      var raw := GetStockData(ticker, w.market, w.volatility);
      var hist := HistoryIn(FinancialReport(fin));
      hist.Some? ==> raw.StockOk? && hist.value == raw.priceHistory
  {
    var fin := RunFinancialAgent(ticker, w.market, w.volatility, w.parse, w.ai);
    FinancialSuccess(ticker, w.market, w.volatility, w.parse, w.ai);
    if fin.Returned? && fin.value.FinancialOk? {
      assert HistoryIn(FinancialReport(fin)) == Some(fin.value.rawData.priceHistory);
    } else {
      assert HistoryIn(FinancialReport(fin)) == None;
    }
  }

  /** A report carries the ticker it was given, the stage reports and the
      error list unchanged, and all four signals. The synthesis step is not
      guarded: a failed call, or a failed parse of the salvaged answer, is
      the outcome, and a report's recommendation is what the answer parsed
      to, object or not; whenever the call and the parse return, a report
      is produced. */
  lemma {:induction false} SynthesisOutcome(ticker: string, results: map<string, StageReport>, errors: seq<string>, ai: Reasoning)
    requires results.Keys == {"financial", "sentiment", "technical", "rag"}
    ensures var r := Synthesize(ticker, results, errors, ai);
      var answer := ai.complete(SynthesisOf(ticker, results));
      && (answer.Raised? ==> r == Raised(answer.error))
      && (answer.Returned? && ParseResponse(answer.value, ai.loads).Raised? ==>
            r == Raised(ParseResponse(answer.value, ai.loads).error))
      && (r.Returned? ==>
            && answer.Returned? && ParseResponse(answer.value, ai.loads) == Returned(r.value.recommendation)
            && r.value.ticker == ticker && r.value.agentResults == results && r.value.errors == errors
            && r.value.signals.Keys == {"financial", "sentiment", "technical", "sec"}
            && r.value.companyName == CompanyName(results["financial"], ticker)
            && r.value.currentPrice == CurrentPrice(results["financial"])
            && r.value.signals == Signals(results))
      && (answer.Returned? && ParseResponse(answer.value, ai.loads).Returned? ==>
            r.Returned? && r.value.recommendation == ParseResponse(answer.value, ai.loads).value)
  {
  }

  /** The error list is empty unless the fundamentals stage raised, in which
      case it holds that one message and the stage's entry is the
      placeholder. */
  lemma {:induction false} ErrorsRecordFinancialCrash(fin: Outcome<FinancialResult>)
    ensures |ErrorsOf(fin)| <= 1
    ensures ErrorsOf(fin) != [] <==> fin.Raised?
    ensures fin.Raised? ==> ErrorsOf(fin) == [FinancialFailurePrefix + fin.error] && FinancialReport(fin) == Crashed
    ensures fin.Returned? ==> FinancialReport(fin) == FinancialStage(fin.value)
  {
  }

  /** The ticker of a report is normalised, and normalising it again keeps it. */
  lemma {:induction false} ReportTicker(collections: map<string, seq<Entry>>, input: string, w: World)
    ensures var r := Orchestrate(collections, input, w);
      r.Returned? ==> r.value.ticker == Strip(Upper(input)) && Strip(Upper(r.value.ticker)) == r.value.ticker
  {
    var ticker := Strip(Upper(input));
    var fin := RunFinancialAgent(ticker, w.market, w.volatility, w.parse, w.ai);
    var financial := FinancialReport(fin);
    var results := Assemble(financial, Sentiment(ticker, w.market, w.ai),
                            RunTechnicalAgent(ticker, HistoryIn(financial), w.market, w.volatility, w.num, w.ai),
                            RagOutcome(collections, ticker, w.edgar, w.ret, w.ai));
    SynthesisOutcome(ticker, results, ErrorsOf(fin), w.ai);
    NormalizeTickerIdempotent(input);
  }

  /** Without a fundamentals result the company name falls back to the
      ticker and the price to "N/A". */
  lemma {:induction false} HeaderDefaults(report: StageReport, ticker: string)
    ensures RawDataIn(report).None? ==> CompanyName(report, ticker) == JStr(ticker) && CurrentPrice(report) == NotAvailable
    ensures report.FinancialStage? && report.financial.FinancialOk? && report.financial.rawData.StockOk? ==>
      && CompanyName(report, ticker) == report.financial.rawData.company.name
      && CurrentPrice(report) == JNum(report.financial.rawData.financials.currentPrice)
  {
  }

  /** The four signals are collected under their own keys. A stage whose
      analysis lacks its signal field (a failed stage has no analysis at
      all) contributes NEUTRAL; one whose analysis has it contributes that
      field, whatever value it holds. */
  lemma {:induction false} SignalDefaults(results: map<string, StageReport>)
    requires results.Keys == {"financial", "sentiment", "technical", "rag"}
    ensures var s := Signals(results);
      && s.Keys == {"financial", "sentiment", "technical", "sec"}
      && ("fundamental_signal" !in AnalysisIn(results["financial"]) ==> s["financial"] == Neutral)
      && ("sentiment_signal" !in AnalysisIn(results["sentiment"]) ==> s["sentiment"] == Neutral)
      && ("technical_signal" !in AnalysisIn(results["technical"]) ==> s["technical"] == Neutral)
      && ("sec_signal" !in AnalysisIn(results["rag"]) ==> s["sec"] == Neutral)
      && ("fundamental_signal" in AnalysisIn(results["financial"]) ==>
            s["financial"] == AnalysisIn(results["financial"])["fundamental_signal"])
      && ("sentiment_signal" in AnalysisIn(results["sentiment"]) ==>
            s["sentiment"] == AnalysisIn(results["sentiment"])["sentiment_signal"])
      && ("technical_signal" in AnalysisIn(results["technical"]) ==>
            s["technical"] == AnalysisIn(results["technical"])["technical_signal"])
      && ("sec_signal" in AnalysisIn(results["rag"]) ==> s["sec"] == AnalysisIn(results["rag"])["sec_signal"])
  {
  }

  /** A stage has an analysis only when it succeeded. */
  lemma {:induction false} AnalysisOnlyOnSuccess(report: StageReport)
    ensures AnalysisIn(report) != map[] ==>
      || (report.FinancialStage? && report.financial.FinancialOk?)
      || (report.SentimentStage? && report.sentiment.SentimentOk?)
      || (report.TechnicalStage? && report.technical.TechnicalOk?)
      || (report.RagStage? && report.rag.RagOk?)
  {
  }
}
