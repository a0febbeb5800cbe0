/**
 * The stock search endpoint: the market-data provider's live quote search,
 * filtered to listed equities and funds with a symbol and a name; when that
 * finds nothing or fails, a fuzzy ranking of a fixed list of well-known
 * stocks. The live search and the string-similarity ratio are parameters.
 */
module Search {
  import opened Common

  const MaxResults: nat := 8

  /** A fallback entry is kept only when its score is above this. */
  const MinScore: real := 0.3

  const TickerPrefixScore: real := 1.0
  const NamePrefixScore: real := 0.8

  /** One quote of the live search; a missing field reads as "". */
  datatype Quote = Quote(symbol: string, longname: string, shortname: string, exchange: string,
                         quoteType: string)

  /** An entry of the local stock list. */
  datatype Stock = Stock(ticker: string, name: string)

  /** A search result: a live quote, or an entry of the local list. */
  datatype Hit =
    | LiveHit(ticker: string, name: string, exchange: string, kind: string)
    | LocalHit(stock: Stock)

  /** The string-similarity ratio of two strings. */
  type Ratio = (string, string) -> real

  /** The local list searched when the live search finds nothing. */
  const Stocks: seq<Stock> := [
    Stock("AAPL", "Apple Inc."),
    Stock("NVDA", "NVIDIA Corporation"),
    Stock("MSFT", "Microsoft Corporation"),
    Stock("GOOGL", "Alphabet Inc."),
    Stock("AMZN", "Amazon.com Inc."),
    Stock("META", "Meta Platforms Inc."),
    Stock("TSLA", "Tesla Inc."),
    Stock("BRKB", "Berkshire Hathaway"),
    Stock("JPM", "JPMorgan Chase"),
    Stock("V", "Visa Inc."),
    Stock("JNJ", "Johnson & Johnson"),
    Stock("WMT", "Walmart Inc."),
    Stock("XOM", "Exxon Mobil"),
    Stock("UNH", "UnitedHealth Group"),
    Stock("MA", "Mastercard Inc."),
    Stock("PG", "Procter & Gamble"),
    Stock("HD", "Home Depot"),
    Stock("CVX", "Chevron Corporation"),
    Stock("MRK", "Merck & Co."),
    Stock("LLY", "Eli Lilly"),
    Stock("ABBV", "AbbVie Inc."),
    Stock("PEP", "PepsiCo Inc."),
    Stock("KO", "Coca-Cola Company"),
    Stock("AVGO", "Broadcom Inc."),
    Stock("COST", "Costco Wholesale"),
    Stock("TMO", "Thermo Fisher Scientific"),
    Stock("CSCO", "Cisco Systems"),
    Stock("ACN", "Accenture"),
    Stock("ABT", "Abbott Laboratories"),
    Stock("MCD", "McDonald's Corporation"),
    Stock("DHR", "Danaher Corporation"),
    Stock("NEE", "NextEra Energy"),
    Stock("TXN", "Texas Instruments"),
    Stock("QCOM", "Qualcomm Inc."),
    Stock("AMD", "Advanced Micro Devices"),
    Stock("INTU", "Intuit Inc."),
    Stock("AMGN", "Amgen Inc."),
    Stock("RTX", "Raytheon Technologies"),
    Stock("HON", "Honeywell International"),
    Stock("IBM", "International Business Machines"),
    Stock("GS", "Goldman Sachs"),
    Stock("MS", "Morgan Stanley"),
    Stock("BAC", "Bank of America"),
    Stock("WFC", "Wells Fargo"),
    Stock("C", "Citigroup Inc."),
    Stock("BLK", "BlackRock Inc."),
    Stock("SPGI", "S&P Global"),
    Stock("AXP", "American Express"),
    Stock("SCHW", "Charles Schwab"),
    Stock("USB", "U.S. Bancorp"),
    Stock("NFLX", "Netflix Inc."),
    Stock("DIS", "Walt Disney Company"),
    Stock("CMCSA", "Comcast Corporation"),
    Stock("T", "AT&T Inc."),
    Stock("VZ", "Verizon Communications"),
    Stock("TMUS", "T-Mobile US"),
    Stock("UBER", "Uber Technologies"),
    Stock("LYFT", "Lyft Inc."),
    Stock("ABNB", "Airbnb Inc."),
    Stock("SNAP", "Snap Inc."),
    Stock("SPOT", "Spotify Technology"),
    Stock("SQ", "Block Inc."),
    Stock("PYPL", "PayPal Holdings"),
    Stock("SHOP", "Shopify Inc."),
    Stock("CRM", "Salesforce Inc."),
    Stock("ORCL", "Oracle Corporation"),
    Stock("SAP", "SAP SE"),
    Stock("NOW", "ServiceNow Inc."),
    Stock("SNOW", "Snowflake Inc."),
    Stock("PLTR", "Palantir Technologies"),
    Stock("NET", "Cloudflare Inc."),
    Stock("ZS", "Zscaler Inc."),
    Stock("CRWD", "CrowdStrike Holdings"),
    Stock("DDOG", "Datadog Inc."),
    Stock("MDB", "MongoDB Inc."),
    Stock("COIN", "Coinbase Global"),
    Stock("HOOD", "Robinhood Markets"),
    Stock("BA", "Boeing Company"),
    Stock("CAT", "Caterpillar Inc."),
    Stock("GE", "GE Aerospace"),
    Stock("MMM", "3M Company"),
    Stock("DE", "Deere & Company"),
    Stock("LMT", "Lockheed Martin"),
    Stock("NOC", "Northrop Grumman"),
    Stock("F", "Ford Motor Company"),
    Stock("GM", "General Motors"),
    Stock("RIVN", "Rivian Automotive"),
    Stock("LCID", "Lucid Group"),
    Stock("NIO", "NIO Inc."),
    Stock("PFE", "Pfizer Inc."),
    Stock("MRNA", "Moderna Inc."),
    Stock("BNTX", "BioNTech SE"),
    Stock("GILD", "Gilead Sciences"),
    Stock("BIIB", "Biogen Inc."),
    Stock("REGN", "Regeneron Pharmaceuticals"),
    Stock("VRTX", "Vertex Pharmaceuticals"),
    Stock("SPY", "SPDR S&P 500 ETF"),
    Stock("QQQ", "Invesco QQQ Trust"),
    Stock("VTI", "Vanguard Total Stock Market ETF")
  ]

  // ---------------------------------------------------------------------
  // The live search
  // ---------------------------------------------------------------------

  /** The long name, else the short name, else "". */
  function DisplayName(q: Quote): string {
    if q.longname != "" then q.longname else q.shortname
  }

  /** Whether a quote is shown: an equity or a fund with a symbol and a name. */
  predicate Listed(q: Quote) {
    (q.quoteType == "EQUITY" || q.quoteType == "ETF") && q.symbol != "" && DisplayName(q) != ""
  }

  function HitOf(q: Quote): Hit {
    LiveHit(q.symbol, DisplayName(q), q.exchange, q.quoteType)
  }

  /** The hits of the loop over the quotes, in their order. */
  function LiveHits(quotes: seq<Quote>): seq<Hit> {
    if quotes == [] then []
    else
      var last := quotes[|quotes| - 1];
      LiveHits(quotes[..|quotes| - 1]) + (if Listed(last) then [HitOf(last)] else [])
  }

  /** The loop over the quotes. */
  method CollectLive(quotes: seq<Quote>) returns (hits: seq<Hit>)
    ensures hits == LiveHits(quotes)
  {
    hits := [];
    for i := 0 to |quotes|
      invariant hits == LiveHits(quotes[..i])
    {
      var q := quotes[i];
      var name := if q.longname != "" then q.longname else q.shortname;
      if (q.quoteType == "EQUITY" || q.quoteType == "ETF") && q.symbol != "" && name != "" {
        hits := hits + [LiveHit(q.symbol, name, q.exchange, q.quoteType)];
      }
      assert quotes[..i + 1][..i] == quotes[..i];
    }
    assert quotes[..|quotes|] == quotes;
  }

  // ---------------------------------------------------------------------
  // The fuzzy fallback
  // ---------------------------------------------------------------------

  function MaxReal(a: real, b: real): real {
    if a >= b then a else b
  }

  /** The best of the similarity to the ticker, the similarity to the name,
      1.0 for a ticker that starts with the query and 0.8 for a name that
      does, all lower-cased. */
  function Score(s: Stock, query: string, ratio: Ratio): real {
    var q := Lower(query);
    MaxReal(MaxReal(ratio(q, Lower(s.ticker)), ratio(q, Lower(s.name))),
            MaxReal(if StartsWith(Lower(s.ticker), q) then TickerPrefixScore else 0.0,
                    if StartsWith(Lower(s.name), q) then NamePrefixScore else 0.0))
  }

  function Scored(stocks: seq<Stock>, query: string, ratio: Ratio): seq<(Stock, real)> {
    seq(|stocks|, i requires 0 <= i < |stocks| => (stocks[i], Score(stocks[i], query, ratio)))
  }

  /** The entries scoring above the threshold, in their order. */
  function Kept(ys: seq<(Stock, real)>): seq<(Stock, real)> {
    if ys == [] then []
    else Kept(ys[..|ys| - 1]) + (if ys[|ys| - 1].1 > MinScore then [ys[|ys| - 1]] else [])
  }

  function ScoreOf(y: (Stock, real)): real {
    y.1
  }

  /** `x` placed after every element whose key is at least as large. */
  function Insert<T>(sorted: seq<T>, x: T, key: T -> real): seq<T> {
    if sorted == [] then [x]
    else if key(sorted[0]) >= key(x) then [sorted[0]] + Insert(sorted[1..], x, key)
    else [x] + sorted
  }

  /** The sort by descending key, as `sort(key=..., reverse=True)`: elements
      of equal key keep their order. */
  function SortDesc<T>(ys: seq<T>, key: T -> real): seq<T> {
    if ys == [] then [] else Insert(SortDesc(ys[..|ys| - 1], key), ys[|ys| - 1], key)
  }

  /** The scored entries above the threshold, best first. */
  function Ranked(stocks: seq<Stock>, query: string, ratio: Ratio): seq<(Stock, real)> {
    SortDesc(Kept(Scored(stocks, query, ratio)), ScoreOf)
  }

  /** The fallback: the eight best entries above the threshold. */
  function Fallback(stocks: seq<Stock>, query: string, ratio: Ratio): seq<Stock> {
    var top := Take(Ranked(stocks, query, ratio), MaxResults);
    seq(|top|, i requires 0 <= i < |top| => top[i].0)
  }

  /** `search_stocks(q)`: nothing for an empty query; the first eight live
      hits when there are any; otherwise the fallback over the local list. */
  function SearchStocks(query: string, live: Outcome<seq<Quote>>, ratio: Ratio): seq<Hit> {
    if query == "" then []
    else if live.Returned? && LiveHits(live.value) != [] then Take(LiveHits(live.value), MaxResults)
    else
      var local := Fallback(Stocks, query, ratio);
      seq(|local|, i requires 0 <= i < |local| => LocalHit(local[i]))
  }

  // ---------------------------------------------------------------------
  // Properties
  // ---------------------------------------------------------------------

  predicate SortedDesc<T>(ys: seq<T>, key: T -> real) {
    forall i, j | 0 <= i < j < |ys| :: key(ys[i]) >= key(ys[j])
  }

  /** A hit is shown exactly for each listed quote, and every hit has a
      symbol, a name and a listed kind. */
  lemma {:induction false} LiveHitsExact(quotes: seq<Quote>, h: Hit)
    ensures h in LiveHits(quotes) <==> exists i | 0 <= i < |quotes| :: Listed(quotes[i]) && HitOf(quotes[i]) == h
    ensures h in LiveHits(quotes) ==>
      h.LiveHit? && h.ticker != "" && h.name != "" && (h.kind == "EQUITY" || h.kind == "ETF")
    ensures |LiveHits(quotes)| <= |quotes|
    decreases |quotes|
  {
    if quotes != [] {
      var front := quotes[..|quotes| - 1];
      var last := quotes[|quotes| - 1];
      var extra := if Listed(last) then [HitOf(last)] else [];
      LiveHitsExact(front, h);
      assert LiveHits(quotes) == LiveHits(front) + extra;
      assert h in LiveHits(quotes) <==> h in LiveHits(front) || h in extra;
      if h in extra {
        assert Listed(last) && HitOf(last) == h;
      }
      if exists i | 0 <= i < |quotes| :: Listed(quotes[i]) && HitOf(quotes[i]) == h {
        var i :| 0 <= i < |quotes| && Listed(quotes[i]) && HitOf(quotes[i]) == h;
        if i < |quotes| - 1 {
          assert front[i] == quotes[i];
        }
      }
    }
  }

  /** The threshold filter keeps exactly the entries above it. */
  lemma {:induction false} KeptExact(ys: seq<(Stock, real)>, y: (Stock, real))
    ensures y in Kept(ys) <==> y in ys && y.1 > MinScore
    decreases |ys|
  {
    if ys != [] {
      var front := ys[..|ys| - 1];
      KeptExact(front, y);
      assert ys == front + [ys[|ys| - 1]];
    }
  }

  /** The threshold filter keeps the order: filtering a concatenation
      filters each part. */
  lemma {:induction false} KeptAppend(xs: seq<(Stock, real)>, ys: seq<(Stock, real)>)
    ensures Kept(xs + ys) == Kept(xs) + Kept(ys)
    decreases |ys|
  {
    if ys != [] {
      var front := ys[..|ys| - 1];
      KeptAppend(xs, front);
      assert (xs + ys)[..|xs + ys| - 1] == xs + front;
      assert (xs + ys)[|xs + ys| - 1] == ys[|ys| - 1];
    } else {
      assert xs + ys == xs;
    }
  }

  /** A single entry survives the threshold exactly when it scores above it. */
  lemma {:induction false} KeptOne(y: (Stock, real))
    ensures Kept([y]) == if y.1 > MinScore then [y] else []
  {
    assert [y][..0] == [];
  }

  /** Insertion adds exactly the one element. */
  lemma {:induction false} InsertPermutes<T>(sorted: seq<T>, x: T, key: T -> real)
    ensures multiset(Insert(sorted, x, key)) == multiset(sorted) + multiset{x}
    decreases |sorted|
  {
    if sorted != [] && key(sorted[0]) >= key(x) {
      InsertPermutes(sorted[1..], x, key);
      assert sorted == [sorted[0]] + sorted[1..];
    }
  }

  /** Insertion adds no key above a bound that all keys respect. */
  lemma {:induction false} InsertBounded<T>(sorted: seq<T>, x: T, key: T -> real, m: real)
    requires forall i | 0 <= i < |sorted| :: key(sorted[i]) <= m
    requires key(x) <= m
    ensures forall i | 0 <= i < |Insert(sorted, x, key)| :: key(Insert(sorted, x, key)[i]) <= m
    decreases |sorted|
  {
    if sorted != [] && key(sorted[0]) >= key(x) {
      var tail := sorted[1..];
      var rest := Insert(tail, x, key);
      InsertBounded(tail, x, key, m);
      var r := [sorted[0]] + rest;
      assert Insert(sorted, x, key) == r;
      forall i | 0 <= i < |r|
        ensures key(r[i]) <= m
      {
        if i > 0 {
          assert r[i] == rest[i - 1];
        }
      }
    } else if sorted != [] {
      var r := [x] + sorted;
      assert Insert(sorted, x, key) == r;
      forall i | 0 <= i < |r|
        ensures key(r[i]) <= m
      {
        if i > 0 {
          assert r[i] == sorted[i - 1];
        }
      }
    }
  }

  /** Insertion keeps the order. */
  lemma {:induction false} InsertSorted<T>(sorted: seq<T>, x: T, key: T -> real)
    requires SortedDesc(sorted, key)
    ensures SortedDesc(Insert(sorted, x, key), key)
    decreases |sorted|
  {
    if sorted != [] && key(sorted[0]) >= key(x) {
      var tail := sorted[1..];
      var rest := Insert(tail, x, key);
      InsertSorted(tail, x, key);
      forall i | 0 <= i < |tail|
        ensures key(tail[i]) <= key(sorted[0])
      {
        assert tail[i] == sorted[i + 1];
      }
      InsertBounded(tail, x, key, key(sorted[0]));
      var r := [sorted[0]] + rest;
      assert Insert(sorted, x, key) == r;
      forall i, j | 0 <= i < j < |r|
        ensures key(r[i]) >= key(r[j])
      {
        assert r[j] == rest[j - 1];
        if i > 0 {
          assert r[i] == rest[i - 1];
        }
      }
    }
  }

  /** The sort orders by descending key and is a permutation. */
  lemma {:induction false} SortDescCorrect<T>(ys: seq<T>, key: T -> real)
    ensures SortedDesc(SortDesc(ys, key), key)
    ensures multiset(SortDesc(ys, key)) == multiset(ys)
    decreases |ys|
  {
    if ys != [] {
      var front := ys[..|ys| - 1];
      SortDescCorrect(front, key);
      InsertSorted(SortDesc(front, key), ys[|ys| - 1], key);
      InsertPermutes(SortDesc(front, key), ys[|ys| - 1], key);
      assert ys == front + [ys[|ys| - 1]];
    }
  }

  /** A stock whose lower-cased ticker starts with the lower-cased query
      scores at least 1.0, one whose name does at least 0.8, so both are
      above the threshold. */
  lemma {:induction false} PrefixScores(s: Stock, query: string, ratio: Ratio)
    ensures StartsWith(Lower(s.ticker), Lower(query)) ==> Score(s, query, ratio) >= TickerPrefixScore > MinScore
    ensures StartsWith(Lower(s.name), Lower(query)) ==> Score(s, query, ratio) >= NamePrefixScore > MinScore
  {
  }

  /** The ranked list holds each stock above the threshold with its score,
      nothing else, best first. */
  lemma {:induction false} RankedExact(stocks: seq<Stock>, query: string, ratio: Ratio)
    ensures var ranked := Ranked(stocks, query, ratio);
      && SortedDesc(ranked, ScoreOf)
      && (forall i | 0 <= i < |ranked| :: ranked[i].0 in stocks)
      && (forall i | 0 <= i < |ranked| :: ranked[i].1 == Score(ranked[i].0, query, ratio) > MinScore)
      && (forall s | s in stocks && Score(s, query, ratio) > MinScore :: (s, Score(s, query, ratio)) in ranked)
  {
    var scored := Scored(stocks, query, ratio);
    var kept := Kept(scored);
    var ranked := Ranked(stocks, query, ratio);
    SortDescCorrect(kept, ScoreOf);
    forall i | 0 <= i < |ranked|
      ensures ranked[i].0 in stocks
      ensures ranked[i].1 == Score(ranked[i].0, query, ratio) > MinScore
    {
      assert ranked[i] in multiset(kept);
      KeptEntry(stocks, query, ratio, ranked[i]);
    }
    forall s | s in stocks && Score(s, query, ratio) > MinScore
      ensures (s, Score(s, query, ratio)) in ranked
    {
      var k :| 0 <= k < |stocks| && stocks[k] == s;
      assert scored[k] == (s, Score(s, query, ratio));
      KeptExact(scored, scored[k]);
      assert scored[k] in multiset(ranked);
    }
  }

  /** A kept entry is a stock of the list with its own score, above the
      threshold. */
  lemma {:induction false} KeptEntry(stocks: seq<Stock>, query: string, ratio: Ratio, y: (Stock, real))
    requires y in Kept(Scored(stocks, query, ratio))
    ensures y.0 in stocks && y.1 == Score(y.0, query, ratio) > MinScore
  {
    var scored := Scored(stocks, query, ratio);
    KeptExact(scored, y);
    var k :| 0 <= k < |scored| && scored[k] == y;
    assert y.0 == stocks[k];
  }

  /** The fallback returns at most eight stocks, each scoring above the
      threshold, best first; and it is the top eight: a stock above the
      threshold that is not returned scores no more than every one that
      is. */
  lemma {:induction false} FallbackRanked(stocks: seq<Stock>, query: string, ratio: Ratio)
    ensures var res := Fallback(stocks, query, ratio);
      && |res| <= MaxResults
      && (forall i | 0 <= i < |res| :: res[i] in stocks)
      && (forall i | 0 <= i < |res| :: Score(res[i], query, ratio) > MinScore)
      && (forall i, j | 0 <= i < j < |res| :: Score(res[i], query, ratio) >= Score(res[j], query, ratio))
      && (forall s | s in stocks && Score(s, query, ratio) > MinScore ::
            s in res || (|res| == MaxResults && forall i | 0 <= i < |res| :: Score(res[i], query, ratio) >= Score(s, query, ratio)))
  {
    RankedExact(stocks, query, ratio);
    FallbackOfRanked(stocks, query, ratio);
    TopOfRanked(stocks, query, ratio, Ranked(stocks, query, ratio), Fallback(stocks, query, ratio));
  }

  /** The fallback is the stocks of the first eight ranked entries. */
  lemma {:induction false} FallbackOfRanked(stocks: seq<Stock>, query: string, ratio: Ratio)
    ensures var ranked := Ranked(stocks, query, ratio);
      |Fallback(stocks, query, ratio)| == if |ranked| <= MaxResults then |ranked| else MaxResults
    ensures forall i | 0 <= i < |Fallback(stocks, query, ratio)| ::
      Fallback(stocks, query, ratio)[i] == Ranked(stocks, query, ratio)[i].0
  {
    var ranked := Ranked(stocks, query, ratio);
    var top := Take(ranked, MaxResults);
    var res := Fallback(stocks, query, ratio);
    assert |res| == |top|;
    forall i | 0 <= i < |res| ensures res[i] == ranked[i].0 {
      assert top[i] == ranked[i];
    }
  }

  /** The first entries of a ranking that holds every stock above the
      threshold are the best of them. */
  lemma {:induction false} TopOfRanked(stocks: seq<Stock>, query: string, ratio: Ratio, ranked: seq<(Stock, real)>, res: seq<Stock>)
    requires SortedDesc(ranked, ScoreOf)
    requires forall i | 0 <= i < |ranked| :: ranked[i].0 in stocks
    requires forall i | 0 <= i < |ranked| :: ranked[i].1 == Score(ranked[i].0, query, ratio) > MinScore
    requires forall s | s in stocks && Score(s, query, ratio) > MinScore :: (s, Score(s, query, ratio)) in ranked
    requires |res| == if |ranked| <= MaxResults then |ranked| else MaxResults
    requires forall i | 0 <= i < |res| :: res[i] == ranked[i].0
    ensures |res| <= MaxResults
    ensures forall i | 0 <= i < |res| :: res[i] in stocks
    ensures forall i | 0 <= i < |res| :: Score(res[i], query, ratio) > MinScore
    ensures forall i, j | 0 <= i < j < |res| :: Score(res[i], query, ratio) >= Score(res[j], query, ratio)
    ensures forall s | s in stocks && Score(s, query, ratio) > MinScore ::
      s in res || (|res| == MaxResults && forall i | 0 <= i < |res| :: Score(res[i], query, ratio) >= Score(s, query, ratio))
  {
    assert forall i | 0 <= i < |res| :: Score(res[i], query, ratio) == ScoreOf(ranked[i]);
    forall i, j | 0 <= i < j < |res|
      ensures Score(res[i], query, ratio) >= Score(res[j], query, ratio)
    {
      assert ScoreOf(ranked[i]) >= ScoreOf(ranked[j]);
    }
    forall s | s in stocks && Score(s, query, ratio) > MinScore
      ensures s in res || (|res| == MaxResults && forall i | 0 <= i < |res| :: Score(res[i], query, ratio) >= Score(s, query, ratio))
    {
      var j :| 0 <= j < |ranked| && ranked[j] == (s, Score(s, query, ratio));
      if j < |res| {
        assert res[j] == s;
      } else {
        assert forall i | 0 <= i < |res| :: ScoreOf(ranked[i]) >= ScoreOf(ranked[j]);
      }
    }
  }

  /** An empty query finds nothing; live hits, when there are any, win and
      are cut to eight; otherwise the local fallback answers, also at most
      eight. */
  lemma {:induction false} SearchCases(query: string, live: Outcome<seq<Quote>>, ratio: Ratio)
    ensures var r := SearchStocks(query, live, ratio);
      && |r| <= MaxResults
      && (query == "" ==> r == [])
      && (query != "" && live.Returned? && LiveHits(live.value) != [] ==>
            r != [] && r == LiveHits(live.value)[..|r|]
            && |r| == Min(|LiveHits(live.value)|, MaxResults))
      && (query != "" && (live.Raised? || LiveHits(live.value) == []) ==>
            |r| == |Fallback(Stocks, query, ratio)|
            && forall i | 0 <= i < |r| :: r[i] == LocalHit(Fallback(Stocks, query, ratio)[i]))
  {
    FallbackRanked(Stocks, query, ratio);
  }
}
