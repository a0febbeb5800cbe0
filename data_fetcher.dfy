/**
 * The market-data layer: the stock report `get_stock_data` assembles from a
 * provider's price history and company information, the lookback prices of
 * its performance figures, and the unit bucketing of `format_large_number`.
 *
 * The provider is a function from ticker to what it answers; the annualised
 * volatility (a standard deviation of daily returns) is taken as given.
 */
module DataFetcher {
  import opened Common

  const BenchmarkTicker: string := "SPY"
  const WeekLookback: nat := 5
  const MonthLookback: nat := 21
  const YearLookback: nat := 252
  const DescriptionLength: nat := 500

  /** One news item as the provider lists it: the `content` entries the
      sentiment stage reads, "" where an entry is missing. */
  datatype NewsItem = NewsItem(title: string, summary: string, pubDate: string)

  /** What the provider answers for one ticker; each request may raise. */
  datatype StockSource = StockSource(
    history: Outcome<PriceSeries>,
    info: Outcome<map<string, Json>>,
    news: Outcome<seq<NewsItem>>)

  type Market = string -> StockSource

  datatype Company = Company(name: Json, sector: Json, industry: Json, country: Json,
                             employees: Json, description: Json)

  datatype Performance = Performance(week: Float, month: Float, year: Float)

  /** The key financials: the last close, its change against the previous
      close, and the provider fields copied with "N/A" defaults. */
  datatype Financials = Financials(currentPrice: real, dayChangePct: Float, fields: map<Field, Json>)

  /** The three shapes of `get_stock_data`'s dictionary. `NoPriceData` is the
      empty-history answer, which carries no "status" key. */
  datatype StockData =
    | StockOk(ticker: string, company: Company, financials: Financials, performance: Performance,
              volatility: real, benchmark: Option<Float>, priceHistory: PriceSeries)
    | NoPriceData(error: string)
    | StockFailed(ticker: string, error: string)
  {
    /** `data.get("status")`. */
    function Status(): Option<string> {
      match this
      case StockOk(_, _, _, _, _, _, _) => Some("success")
      case NoPriceData(_) => None
      case StockFailed(_, _) => Some("failed")
    }

    /** `data.get("error")`. */
    function Error(): Option<string> {
      match this
      case StockOk(_, _, _, _, _, _, _) => None
      case NoPriceData(e) => Some(e)
      case StockFailed(_, e) => Some(e)
    }
  }

  const NotAvailable: Json := JStr("N/A")

  /** The report's financial keys copied from the provider's fields. */
  datatype Field =
    | MarketCap | PeRatio | ForwardPe | Eps | Revenue | RevenueGrowth | GrossMargins | ProfitMargins
    | DebtToEquity | ReturnOnEquity | FreeCashflow | DividendYield | WeekHigh52 | WeekLow52
    | AnalystTarget | Recommendation

  const AllFields: set<Field> := {
    MarketCap, PeRatio, ForwardPe, Eps, Revenue, RevenueGrowth, GrossMargins, ProfitMargins,
    DebtToEquity, ReturnOnEquity, FreeCashflow, DividendYield, WeekHigh52, WeekLow52,
    AnalystTarget, Recommendation}

  /** The provider field each key copies. */
  function ProviderKey(f: Field): string {
    match f
    case MarketCap => "marketCap"
    case PeRatio => "trailingPE"
    case ForwardPe => "forwardPE"
    case Eps => "trailingEps"
    case Revenue => "totalRevenue"
    case RevenueGrowth => "revenueGrowth"
    case GrossMargins => "grossMargins"
    case ProfitMargins => "profitMargins"
    case DebtToEquity => "debtToEquity"
    case ReturnOnEquity => "returnOnEquity"
    case FreeCashflow => "freeCashflow"
    case DividendYield => "dividendYield"
    case WeekHigh52 => "fiftyTwoWeekHigh"
    case WeekLow52 => "fiftyTwoWeekLow"
    case AnalystTarget => "targetMeanPrice"
    case Recommendation => "recommendationKey"
  }

  // ---------------------------------------------------------------------
  // Lookbacks
  // ---------------------------------------------------------------------

  /** The row `iloc[-n] if len >= n else iloc[0]` selects. */
  function LookbackIndex(len: nat, n: nat): nat {
    if len >= n then len - n else 0
  }

  function Lookback(c: seq<real>, n: nat): real
    requires |c| > 0 && n > 0
  {
    c[LookbackIndex(|c|, n)]
  }

  function Performances(c: seq<real>): Performance
    requires |c| > 0
  {
    var now := c[|c| - 1];
    Performance(PctChange(now, Lookback(c, WeekLookback)), PctChange(now, Lookback(c, MonthLookback)),
                PctChange(now, Lookback(c, YearLookback)))
  }

  /** The lookback is the close `n - 1` rows before the last one, or the
      oldest close when the history is shorter than `n` rows; a longer
      lookback never selects a later row. */
  lemma {:induction false} LookbackAge(c: seq<real>, n: nat, m: nat)
    requires |c| > 0 && 0 < n <= m
    ensures |c| - 1 - LookbackIndex(|c|, n) == Min(n, |c|) - 1
    ensures Lookback(c, n) == c[|c| - Min(n, |c|)]
    ensures LookbackIndex(|c|, m) <= LookbackIndex(|c|, n)
  {
  }

  // ---------------------------------------------------------------------
  // The report
  // ---------------------------------------------------------------------

  /** The message of the TypeError that slicing a non-sequence raises. */
  function NotSubscriptable(v: Json): string {
    match v
    case JObj(_) => "unhashable type: 'slice'"
    case JNull => "'NoneType' object is not subscriptable"
    case JBool(_) => "'bool' object is not subscriptable"
    case _ => "'float' object is not subscriptable"
  }

  /** `info.get("longBusinessSummary", "N/A")[:500]`: strings and lists are
      cut, anything else raises. */
  function Description(info: map<string, Json>): (r: Outcome<Json>)
    ensures "longBusinessSummary" !in info ==> r == Returned(NotAvailable)
    ensures r.Returned? ==> (r.value.JStr? && |r.value.s| <= DescriptionLength)
                            || (r.value.JArr? && |r.value.items| <= DescriptionLength)
    ensures "longBusinessSummary" in info && info["longBusinessSummary"].JStr? ==>
              var s := info["longBusinessSummary"].s;
              r.Returned? && r.value.JStr? && r.value.s <= s && |r.value.s| == Min(|s|, DescriptionLength)
    ensures "longBusinessSummary" in info && info["longBusinessSummary"].JArr? ==>
              var xs := info["longBusinessSummary"].items;
              r.Returned? && r.value.JArr? && r.value.items <= xs && |r.value.items| == Min(|xs|, DescriptionLength)
    ensures "longBusinessSummary" in info && !info["longBusinessSummary"].JStr? && !info["longBusinessSummary"].JArr? ==>
              r == Raised(NotSubscriptable(info["longBusinessSummary"]))
  {
    match Get(info, "longBusinessSummary", NotAvailable)
    case JStr(s) => Returned(JStr(Take(s, DescriptionLength)))
    case JArr(xs) => Returned(JArr(Take(xs, DescriptionLength)))
    case v => Raised(NotSubscriptable(v))
  }

  function CompanyOf(ticker: string, info: map<string, Json>, description: Json): Company {
    Company(Get(info, "longName", JStr(ticker)), Get(info, "sector", JStr("Unknown")),
            Get(info, "industry", JStr("Unknown")), Get(info, "country", JStr("Unknown")),
            Get(info, "fullTimeEmployees", NotAvailable), description)
  }

  function FinancialFields(info: map<string, Json>): (m: map<Field, Json>)
    ensures m.Keys == AllFields
  {
    map f | f in AllFields :: Get(info, ProviderKey(f), NotAvailable)
  }

  /** The benchmark's one-year return, `None` for "N/A" when its history is
      empty. */
  function BenchmarkReturn(bench: PriceSeries): Option<Float> {
    if |bench| == 0 then None
    else
      var c := Closes(bench);
      Some(PctChange(c[|c| - 1], Lookback(c, YearLookback)))
  }

  /** `get_stock_data(ticker)`, in the order of its requests and indexing. */
  function GetStockData(ticker: string, market: Market, volatility: seq<real> -> real): StockData {
    var src := market(ticker);
    match src.history
    case Raised(e) => StockFailed(ticker, e)
    case Returned(h) =>
      if |h| == 0 then NoPriceData("No price data found for " + ticker)
      else if |h| < 2 then StockFailed(ticker, IndexOutOfBounds)
      else
        var c := Closes(h);
        var now, prev := c[|c| - 1], c[|c| - 2];
        match src.info
        case Raised(e) => StockFailed(ticker, e)
        case Returned(info) =>
          match Description(info)
          case Raised(e) => StockFailed(ticker, e)
          case Returned(desc) =>
            match market(BenchmarkTicker).history
            case Raised(e) => StockFailed(ticker, e)
            case Returned(bench) =>
              StockOk(ticker, CompanyOf(ticker, info, desc),
                      Financials(now, PctChange(now, prev), FinancialFields(info)),
                      Performances(c), volatility(c), BenchmarkReturn(bench), h)
  }

  /** The outcomes of `get_stock_data`: an empty history gives the
      status-less error, a one-row history fails on `iloc[-2]`, and a
      report carries the history itself, its last close, its lookback
      performances and the benchmark return ("N/A" exactly when the
      benchmark history is empty). On two rows or more, a failing profile
      request, description or benchmark request fails with its message,
      and otherwise the report is produced. */
  lemma {:induction false} StockDataCases(ticker: string, market: Market, volatility: seq<real> -> real)
    ensures var d := GetStockData(ticker, market, volatility);
      var hist := market(ticker).history;
      && (d.NoPriceData? <==> hist.Returned? && |hist.value| == 0)
      && (d.NoPriceData? ==> d.Status() == None && d.error == "No price data found for " + ticker)
      && (hist.Returned? && |hist.value| == 1 ==> d == StockFailed(ticker, IndexOutOfBounds))
      && (hist.Raised? ==> d == StockFailed(ticker, hist.error))
      && (d.StockOk? ==>
            && hist.Returned? && d.priceHistory == hist.value && |d.priceHistory| >= 2
            && d.ticker == ticker
            && d.financials.currentPrice == hist.value[|hist.value| - 1].close
            && d.performance == Performances(Closes(hist.value))
            && market(BenchmarkTicker).history.Returned?
            && (d.benchmark == None <==> |market(BenchmarkTicker).history.value| == 0))
      && (d.StockFailed? ==> d.Status() == Some("failed") && d.ticker == ticker)
      && (hist.Returned? && |hist.value| >= 2 ==>
            var info := market(ticker).info;
            var bench := market(BenchmarkTicker).history;
            && (info.Raised? ==> d == StockFailed(ticker, info.error))
            && (info.Returned? && Description(info.value).Raised? ==>
                  d == StockFailed(ticker, Description(info.value).error))
            && (info.Returned? && Description(info.value).Returned? ==>
                  && (bench.Raised? ==> d == StockFailed(ticker, bench.error))
                  && (bench.Returned? ==> d.StockOk?)))
  {
  }

  /** Each financial key holds its provider field, or "N/A" when the
      provider has none. */
  lemma {:induction false} FinancialFieldDefaults(info: map<string, Json>, f: Field)
    ensures var m := FinancialFields(info);
      && f in m
      && (ProviderKey(f) in info ==> m[f] == info[ProviderKey(f)])
      && (ProviderKey(f) !in info ==> m[f] == NotAvailable)
  {
  }

  // ---------------------------------------------------------------------
  // format_large_number
  // ---------------------------------------------------------------------

  datatype Unit = Trillions | Billions | Millions | Dollars

  function Divisor(u: Unit): real {
    match u
    case Trillions => 1000000000000.0
    case Billions => 1000000000.0
    case Millions => 1000000.0
    case Dollars => 1.0
  }

  /** What `format_large_number` renders: "N/A", an amount in a unit
      (`$1.2B`; the digits are left to the formatter), or `str(num)` of an
      input `float()` rejects. */
  datatype Formatted = FormattedNA | Scaled(amount: real, unit: Unit) | Verbatim(raw: Json)

  /** Python's `float(num)` on a JSON value; `parse` is its reading of a
      numeric string. */
  function AsFloat(num: Json, parse: string -> Option<real>): Option<real> {
    match num
    case JNum(x) => Some(x)
    case JBool(b) => Some(if b then 1.0 else 0.0)
    case JStr(s) => parse(s)
    case _ => None
  }

  function FormatLargeNumber(num: Json, parse: string -> Option<real>): Formatted {
    if num == NotAvailable || num == JNull then FormattedNA
    else
      match AsFloat(num, parse)
      case None => Verbatim(num)
      case Some(x) =>
        if x >= 1000000000000.0 then Scaled(x / 1000000000000.0, Trillions)
        else if x >= 1000000000.0 then Scaled(x / 1000000000.0, Billions)
        else if x >= 1000000.0 then Scaled(x / 1000000.0, Millions)
        else Scaled(x, Dollars)
  }

  /** The buckets are tried in decreasing order: the unit is the largest one
      the value reaches, the amount times the unit is the value, and a scaled
      amount lies in [1, 1000) except in trillions. */
  lemma {:induction false} FormatBuckets(num: Json, parse: string -> Option<real>, x: real)
    requires num != NotAvailable && num != JNull && AsFloat(num, parse) == Some(x)
    ensures var r := FormatLargeNumber(num, parse);
      && r.Scaled?
      && r.amount * Divisor(r.unit) == x
      && (r.unit == Trillions <==> x >= 1000000000000.0)
      && (r.unit == Billions <==> 1000000000.0 <= x < 1000000000000.0)
      && (r.unit == Millions <==> 1000000.0 <= x < 1000000000.0)
      && (r.unit == Dollars <==> x < 1000000.0)
      && (r.unit != Dollars ==> 1.0 <= r.amount)
      && (r.unit == Billions || r.unit == Millions ==> r.amount < 1000.0)
  {
  }

  /** "N/A" exactly for "N/A" and None; `str(num)` exactly for what `float()`
      rejects, echoing the input. */
  lemma {:induction false} FormatFallbacks(num: Json, parse: string -> Option<real>)
    ensures var r := FormatLargeNumber(num, parse);
      && (r == FormattedNA <==> num == NotAvailable || num == JNull)
      && (r.Verbatim? <==> num != NotAvailable && num != JNull && AsFloat(num, parse) == None)
      && (r.Verbatim? ==> r.raw == num)
  {
  }
}
