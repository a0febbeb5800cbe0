/**
 * The chart endpoint: map the requested period to the market-data period
 * and bar interval, fetch the history, turn each bar into a chart point and
 * report the change over the window. The history download is a parameter.
 */
module Chart {
  import opened Common
  import opened Accounts

  /** The requested period to the market-data period. */
  const PeriodMap: map<string, string> :=
    map["1D" := "1d", "1W" := "5d", "1M" := "1mo", "3M" := "3mo",
        "6M" := "6mo", "1Y" := "1y", "5Y" := "5y", "MAX" := "max"]

  /** The requested period to the bar interval. */
  const IntervalMap: map<string, string> :=
    map["1D" := "5m", "1W" := "1h", "1M" := "1d", "3M" := "1d",
        "6M" := "1d", "1Y" := "1d", "5Y" := "1wk", "MAX" := "1mo"]

  const DefaultPeriod: string := "1M"

  const NoData: HttpError := HttpError(404, JStr("No data found"))

  /** One bar of the downloaded history, keyed by its timestamp's text. */
  datatype HistoryRow = HistoryRow(date: string, close: real, open: real, high: real, low: real, volume: real)

  /** One point of the chart: the prices as floats and the volume as
      `int(...)` truncates it. */
  datatype ChartPoint = ChartPoint(date: string, close: real, open: real, high: real, low: real, volume: int)

  datatype ChartData = ChartData(ticker: string, period: string, data: seq<ChartPoint>, changePct: real,
                                 isPositive: bool)

  /** The history download: (ticker, period, interval) to the bars, or the
      exception it raised. */
  type History = (string, string, string) -> Outcome<seq<HistoryRow>>

  function MarketPeriod(period: string): string {
    Get(PeriodMap, period, "1mo")
  }

  function BarInterval(period: string): string {
    Get(IntervalMap, period, "1d")
  }

  function PointOf(row: HistoryRow): ChartPoint {
    ChartPoint(row.date, row.close, row.open, row.high, row.low, Trunc(row.volume))
  }

  /** The percentage change from the first close to the last, 0 when the
      first close is 0. */
  function ChangePct(first: real, last: real): real {
    if first != 0.0 then (last - first) / first * 100.0 else 0.0
  }

  /** The chart, as a value: the 404 for an empty history, the 500 for a
      failed download, else the points and the change over the window. */
  function ChartOf(ticker: string, period: string, history: History): Http<ChartData> {
    var symbol := Upper(ticker);
    match history(symbol, MarketPeriod(period), BarInterval(period))
    case Raised(e) => Rejected(HttpError(500, JStr(e)))
    case Returned(rows) =>
      if rows == [] then Rejected(NoData)
      else
        var change := ChangePct(rows[0].close, rows[|rows| - 1].close);
        Answer(ChartData(symbol, period, seq(|rows|, i requires 0 <= i < |rows| => PointOf(rows[i])),
                         change, change >= 0.0))
  }

  /** The loop over the bars. */
  method Points(rows: seq<HistoryRow>) returns (data: seq<ChartPoint>)
    ensures |data| == |rows|
    ensures forall i | 0 <= i < |rows| :: data[i] == PointOf(rows[i])
  {
    data := [];
    for i := 0 to |rows|
      invariant |data| == i
      invariant forall k | 0 <= k < i :: data[k] == PointOf(rows[k])
    {
      data := data + [PointOf(rows[i])];
    }
  }

  /** `get_chart_data`. */
  method GetChartData(ticker: string, period: string, history: History) returns (r: Http<ChartData>)
    ensures r == ChartOf(ticker, period, history)
  {
    var symbol := Upper(ticker);
    var hist := history(symbol, MarketPeriod(period), BarInterval(period));
    if hist.Raised? {
      return Rejected(HttpError(500, JStr(hist.error)));
    }
    if hist.value == [] {
      return Rejected(NoData);
    }
    var data := Points(hist.value);
    var first := data[0].close;
    var last := data[|data| - 1].close;
    var change := ChangePct(first, last);
    assert data == seq(|hist.value|, i requires 0 <= i < |hist.value| => PointOf(hist.value[i]));
    r := Answer(ChartData(symbol, period, data, change, change >= 0.0));
  }

  // ---------------------------------------------------------------------
  // Properties
  // ---------------------------------------------------------------------

  /** Both tables know the same periods, and a period they do not know is
      the one-month chart of daily bars. */
  lemma {:induction false} UnknownPeriodIsOneMonth(period: string)
    ensures period in PeriodMap <==> period in IntervalMap
    ensures period !in PeriodMap ==>
      MarketPeriod(period) == MarketPeriod(DefaultPeriod) == "1mo"
      && BarInterval(period) == BarInterval(DefaultPeriod) == "1d"
  {
  }

  /** On a positive first close the change is non-negative exactly when the
      last close is at least the first, and its size is the relative move;
      the chart is marked positive exactly when the change is not negative. */
  lemma {:induction false} ChangeDirection(first: real, last: real)
    ensures first > 0.0 ==> (ChangePct(first, last) >= 0.0 <==> last >= first)
    ensures first > 0.0 ==> ChangePct(first, last) * first == (last - first) * 100.0
    ensures first == 0.0 ==> ChangePct(first, last) == 0.0
    ensures ChangePct(first, first) == 0.0
  {
    if first > 0.0 {
      var c := (last - first) / first;
      assert c * first == last - first;
      assert c >= 0.0 <==> last - first >= 0.0;
    }
  }

  /** A chart holds one point per bar, in order, with the bar's prices and
      its volume truncated toward zero, and its change runs from the first
      bar's close to the last's; an empty history is the 404, and any other
      returned history gives a chart. */
  lemma {:induction false} ChartShape(ticker: string, period: string, history: History)
    ensures var r := ChartOf(ticker, period, history);
      var h := history(Upper(ticker), MarketPeriod(period), BarInterval(period));
      && (h.Raised? ==> r == Rejected(HttpError(500, JStr(h.error))))
      && (h == Returned([]) ==> r == Rejected(NoData))
      && (h.Returned? && h.value != [] ==> r.Answer?)
      && (r.Answer? ==>
            && h.Returned? && |r.value.data| == |h.value| > 0
            && r.value.ticker == Upper(ticker) && r.value.period == period
            && (forall i | 0 <= i < |h.value| ::
                  var (p, bar) := (r.value.data[i], h.value[i]);
                  && p.date == bar.date && p.close == bar.close && p.open == bar.open
                  && p.high == bar.high && p.low == bar.low
                  && (bar.volume >= 0.0 ==> 0 <= p.volume && p.volume as real <= bar.volume < p.volume as real + 1.0)
                  && (bar.volume < 0.0 ==> p.volume <= 0 && p.volume as real - 1.0 < bar.volume <= p.volume as real))
            && r.value.changePct == ChangePct(r.value.data[0].close, r.value.data[|r.value.data| - 1].close)
            && (r.value.isPositive <==> r.value.changePct >= 0.0))
  {
    var h := history(Upper(ticker), MarketPeriod(period), BarInterval(period));
    if h.Returned? {
      forall i | 0 <= i < |h.value| {
        TruncTowardZero(h.value[i].volume);
      }
    }
  }
}
