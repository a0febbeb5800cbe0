/**
 * The news-sentiment stage: a numbered digest of the first ten news items,
 * one reasoning call and the strict-then-salvage parse. Every exception
 * becomes a failed result carrying its message.
 */
module SentimentAgent {
  import opened Common
  import opened DataFetcher
  import opened AgentCommon

  const MaxNewsItems: nat := 10
  const SummaryLength: nat := 200
  const NoNews: string := "No recent news available."

  datatype SentimentResult =
    | SentimentOk(ticker: string, newsCount: nat, analysis: map<string, Json>)
    | SentimentFailed(ticker: string, error: string)

  /** The lines item `i` adds: none without a title, else its numbered title
      line and, when it has a summary, the summary cut at 200 characters. */
  function NewsLines(i: nat, item: NewsItem): string {
    if item.title == "" then ""
    else
      NatToString(i + 1) + ". [" + item.pubDate + "] " + item.title + "\n"
      + (if item.summary == "" then "" else "   " + Take(item.summary, SummaryLength) + "\n")
  }

  /** The digest of the loop over `enumerate(items)`. */
  function NewsDigest(items: seq<NewsItem>): string {
    if |items| == 0 then ""
    else NewsDigest(items[..|items| - 1]) + NewsLines(|items| - 1, items[|items| - 1])
  }

  /** The news text of the prompt. */
  function NewsText(items: seq<NewsItem>): string {
    var d := NewsDigest(items);
    if d == "" then NoNews else d
  }

  /** `run_sentiment_agent(ticker)`. */
  function Sentiment(ticker: string, market: Market, ai: Reasoning): SentimentResult {
    match market(ticker).news
    case Raised(e) => SentimentFailed(ticker, e)
    case Returned(news) =>
      var items := Take(news, MaxNewsItems);
      match Consult(ai, NewsPrompt(ticker, NewsText(items)))
      case Raised(e) => SentimentFailed(ticker, e)
      case Returned(analysis) => SentimentOk(ticker, |items|, analysis)
  }

  /** The digest loop, line by line. */
  method NewsDigestLoop(items: seq<NewsItem>) returns (text: string)
    ensures text == NewsDigest(items)
  {
    text := "";
    for i := 0 to |items|
      invariant text == NewsDigest(items[..i])
    {
      var item := items[i];
      PrefixOfPrefix(items, i + 1, i);
      if item.title != "" {
        var head := NatToString(i + 1) + ". [" + item.pubDate + "] " + item.title + "\n";
        text := text + head;
        if item.summary != "" {
          AppendAssoc(NewsDigest(items[..i]), head, "   " + Take(item.summary, SummaryLength) + "\n");
          text := text + "   " + Take(item.summary, SummaryLength) + "\n";
        } else {
          AppendNil(head);
        }
      } else {
        AppendNil(text);
      }
    }
    TakeAll(items);
  }

  method RunSentimentAgent(ticker: string, market: Market, ai: Reasoning) returns (r: SentimentResult)
    ensures r == Sentiment(ticker, market, ai)
  {
    var news := market(ticker).news;
    if news.Raised? {
      return SentimentFailed(ticker, news.error);
    }
    var items := Take(news.value, MaxNewsItems);
    var text := NewsDigestLoop(items);
    if text == "" {
      text := NoNews;
    }
    var analysis := Consult(ai, NewsPrompt(ticker, text));
    if analysis.Raised? {
      return SentimentFailed(ticker, analysis.error);
    }
    r := SentimentOk(ticker, |items|, analysis.value);
  }

  // ---------------------------------------------------------------------
  // Properties
  // ---------------------------------------------------------------------

  /** The digest is empty exactly when no item has a title, so the
      placeholder text is used exactly then. */
  lemma {:induction false} NewsDigestEmpty(items: seq<NewsItem>)
    ensures NewsDigest(items) == "" <==> forall i | 0 <= i < |items| :: items[i].title == ""
  {
    if |items| > 0 {
      var front := items[..|items| - 1];
      var last := items[|items| - 1];
      NewsDigestEmpty(front);
      assert forall i | 0 <= i < |front| :: front[i] == items[i];
      NewsLinesEmpty(|items| - 1, last);
      ConcatEmpty(NewsDigest(front), NewsLines(|items| - 1, last));
    }
  }

  lemma {:induction false} NewsLinesEmpty(i: nat, item: NewsItem)
    ensures NewsLines(i, item) == "" <==> item.title == ""
  {
    if item.title != "" {
      assert |NewsLines(i, item)| > 0;
    }
  }

  lemma {:induction false} ConcatEmpty(a: string, b: string)
    ensures a + b == "" <==> a == "" && b == ""
  {
    if a + b == "" {
      assert |a + b| == |a| + |b|;
    }
  }

  /** Dropping the last item leaves a prefix of the digest. */
  lemma {:induction false} NewsDigestStep(items: seq<NewsItem>)
    requires |items| > 0
    ensures NewsDigest(items[..|items| - 1]) <= NewsDigest(items)
  {
    var front := NewsDigest(items[..|items| - 1]);
    PrefixExtend(front, front, NewsLines(|items| - 1, items[|items| - 1]));
  }

  /** The digest of the first `j` items begins the digest of all of them. */
  lemma {:induction false} NewsDigestPrefix(items: seq<NewsItem>, j: nat)
    requires j <= |items|
    ensures NewsDigest(items[..j]) <= NewsDigest(items)
    decreases |items| - j
  {
    if j < |items| {
      NewsDigestPrefix(items, j + 1);
      PrefixOfPrefix(items, j + 1, j);
      NewsDigestStep(items[..j + 1]);
      PrefixTrans(NewsDigest(items[..j]), NewsDigest(items[..j + 1]), NewsDigest(items));
    } else {
      TakeAll(items);
    }
  }

  /** The lines of item `j` follow those of the items before it, numbered by
      the item's position: untitled items leave gaps in the numbering rather
      than renumbering the later lines. */
  lemma {:induction false} NewsLinesAt(items: seq<NewsItem>, j: nat)
    requires j < |items|
    ensures NewsDigest(items[..j]) + NewsLines(j, items[j]) <= NewsDigest(items)
  {
    PrefixOfPrefix(items, j + 1, j);
    NewsDigestPrefix(items, j + 1);
  }

  /** At most ten items are considered, and the count reported includes the
      untitled ones; a failing provider or reasoning step becomes a failed
      result with its message, and when both return the stage succeeds with
      the parsed analysis of the prompt built from those items. */
  lemma {:induction false} SentimentOutcome(ticker: string, market: Market, ai: Reasoning)
    ensures var r := Sentiment(ticker, market, ai);
      var news := market(ticker).news;
      && (news.Raised? ==> r == SentimentFailed(ticker, news.error))
      && (r.SentimentOk? ==> news.Returned? && r.newsCount == Min(|news.value|, MaxNewsItems) <= MaxNewsItems)
      && (news.Returned? ==>
            var prompt := NewsPrompt(ticker, NewsText(Take(news.value, MaxNewsItems)));
            && (Consult(ai, prompt).Raised? ==> r == SentimentFailed(ticker, Consult(ai, prompt).error))
            && (Consult(ai, prompt).Returned? ==>
                  r == SentimentOk(ticker, Min(|news.value|, MaxNewsItems), Consult(ai, prompt).value)))
      && r.ticker == ticker
      && (r.SentimentOk? ==>
            Consult(ai, NewsPrompt(ticker, NewsText(Take(news.value, MaxNewsItems)))) == Returned(r.analysis))
  {
  }
}
