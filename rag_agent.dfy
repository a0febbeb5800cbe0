/**
 * The filings stage: fetch the recent filings, rebuild the ticker's
 * collection in the store and ask it the five topic questions, then one
 * reasoning call over a digest of the answers. Every exception becomes a
 * failed result carrying the ticker and its message; a failed fetch is
 * returned without the ticker.
 */
module RagAgent {
  import opened Common
  import opened SecFetcher
  import opened VectorStore
  import opened AgentCommon

  /** How much of each topic's context the digest keeps. */
  const SectionLength: nat := 500

  datatype RagResult =
    | RagOk(ticker: string, filingsAnalyzed: nat, chunksIndexed: nat, analysis: map<string, Json>)
    | RagFailed(failedTicker: Option<string>, error: string)

  /** The EDGAR responses the fetch step reads: the ticker table, the
      submissions document as answered to the request made for each form
      type and, by index page address, the pages of each filing. */
  datatype Edgar = Edgar(table: Outcome<seq<TickerEntry>>, subs: string -> Outcome<Submissions>,
                         fetch: string -> FilingPages)

  /** The retrieval side of the store: the embedder and the ranking. */
  datatype Retrieval = Retrieval(embed: string -> Vector, rank: (seq<Entry>, string) -> Outcome<seq<Neighbour>>)

  function FilingsOf(ticker: string, edgar: Edgar): FilingsData {
    FilingsText(ticker, edgar.table, edgar.subs, edgar.fetch)
  }

  /** One topic's section of the digest: the upper-cased topic on its own
      line, then the first 500 characters of its context. */
  function Section(insight: (string, string)): string {
    "\n" + Upper(insight.0) + ":\n" + Take(insight.1, SectionLength) + "\n"
  }

  /** The digest of the loop over the insights, in their order. */
  function InsightsDigest(insights: seq<(string, string)>): string {
    FlatMap(insights, Section)
  }

  /** The store after the stage: the ticker's collection rebuilt when the
      fetch succeeded, untouched otherwise. */
  function RagStore(collections: map<string, seq<Entry>>, ticker: string, edgar: Edgar,
                    ret: Retrieval): map<string, seq<Entry>>
  {
    var data := FilingsOf(ticker, edgar);
    if data.FilingsFailed? then collections else Rebuilt(collections, ticker, data.filings, ret.embed)
  }

  /** `run_rag_agent(ticker)` against the store as it was before the call. */
  function RagOutcome(collections: map<string, seq<Entry>>, ticker: string, edgar: Edgar,
                      ret: Retrieval, ai: Reasoning): RagResult
  {
    var data := FilingsOf(ticker, edgar);
    if data.FilingsFailed? then RagFailed(None, data.error)
    else
      var after := Rebuilt(collections, ticker, data.filings, ret.embed);
      var insights := Insights(after, ticker, Topics, ret.rank);
      match Consult(ai, FilingsPrompt(ticker, InsightsDigest(insights)))
      case Raised(e) => RagFailed(Some(ticker), e)
      case Returned(analysis) => RagOk(ticker, data.totalFilings, |IndexEntries(data.filings, ret.embed)|, analysis)
  }

  /** The digest loop. */
  method DigestInsights(insights: seq<(string, string)>) returns (text: string)
    ensures text == InsightsDigest(insights)
  {
    text := "";
    for i := 0 to |insights|
      invariant text == InsightsDigest(insights[..i])
    {
      var (topic, content) := insights[i];
      FlatMapStep(insights, Section, i);
      text := text + ("\n" + Upper(topic) + ":\n" + Take(content, SectionLength) + "\n");
    }
    TakeAll(insights);
  }

  method RunRagAgent(store: Store, ticker: string, edgar: Edgar, ret: Retrieval, ai: Reasoning)
    returns (r: RagResult)
    modifies store
    ensures r == RagOutcome(old(store.collections), ticker, edgar, ret, ai)
    ensures store.collections == RagStore(old(store.collections), ticker, edgar, ret)
  {
    var data := GetSecFilingsText(ticker, edgar.table, edgar.subs, edgar.fetch);
    if data.FilingsFailed? {
      return RagFailed(None, data.error);
    }
    var insights := store.GetSecInsights(ticker, data, ret.embed, ret.rank);
    var text := DigestInsights(insights.insights);
    var analysis := Consult(ai, FilingsPrompt(ticker, text));
    if analysis.Raised? {
      return RagFailed(Some(ticker), analysis.error);
    }
    r := RagOk(ticker, data.totalFilings, insights.totalChunksIndexed, analysis.value);
  }

  // ---------------------------------------------------------------------
  // Properties
  // ---------------------------------------------------------------------

  /** Insights read only the ticker's own collection. */
  lemma {:induction false} InsightsLocal(c1: map<string, seq<Entry>>, c2: map<string, seq<Entry>>, ticker: string,
                                         topics: seq<(string, string)>, rank: (seq<Entry>, string) -> Outcome<seq<Neighbour>>)
    requires CollectionName(ticker) in c1 && CollectionName(ticker) in c2
    requires c1[CollectionName(ticker)] == c2[CollectionName(ticker)]
    ensures Insights(c1, ticker, topics, rank) == Insights(c2, ticker, topics, rank)
    decreases |topics|
  {
    if |topics| > 0 {
      InsightsLocal(c1, c2, ticker, topics[..|topics| - 1], rank);
      var query := topics[|topics| - 1].1;
      assert QueryResult(c1, ticker, query, TopK, rank) == QueryResult(c2, ticker, query, TopK, rank);
    }
  }

  /** The collection is rebuilt from scratch, so the stage's result does not
      depend on what the store held before: a rerun over the same responses
      gives the same result. */
  lemma {:induction false} RagIgnoresPriorStore(c1: map<string, seq<Entry>>, c2: map<string, seq<Entry>>, ticker: string,
                             edgar: Edgar, ret: Retrieval, ai: Reasoning)
    ensures RagOutcome(c1, ticker, edgar, ret, ai) == RagOutcome(c2, ticker, edgar, ret, ai)
  {
    var data := FilingsOf(ticker, edgar);
    if data.FilingsOk? {
      InsightsLocal(Rebuilt(c1, ticker, data.filings, ret.embed), Rebuilt(c2, ticker, data.filings, ret.embed),
                    ticker, Topics, ret.rank);
    }
  }

  /** Running the stage twice leaves the store as running it once. */
  lemma {:induction false} RagStoreIdempotent(collections: map<string, seq<Entry>>, ticker: string, edgar: Edgar, ret: Retrieval)
    ensures RagStore(RagStore(collections, ticker, edgar, ret), ticker, edgar, ret)
         == RagStore(collections, ticker, edgar, ret)
  {
  }

  /** A failed fetch is passed on without the ticker and the store is not
      touched; a success reports the fetched filing count, the number of
      chunks indexed and the object the answer parsed to. Conversely, after a
      successful fetch the stage succeeds exactly when the reasoning call and
      its parse return, and otherwise fails with the ticker and their
      message. */
  lemma {:induction false} RagOutcomeCases(collections: map<string, seq<Entry>>, ticker: string, edgar: Edgar,
                        ret: Retrieval, ai: Reasoning)
    ensures var data := FilingsOf(ticker, edgar);
      var r := RagOutcome(collections, ticker, edgar, ret, ai);
      && (data.FilingsFailed? ==> r == RagFailed(None, data.error)
                                  && RagStore(collections, ticker, edgar, ret) == collections)
      && (r.RagOk? ==>
            && data.FilingsOk? && r.ticker == ticker && r.filingsAnalyzed == data.totalFilings
            && r.chunksIndexed == |Documents(data.filings)|
            && Consult(ai, FilingsPrompt(ticker, InsightsDigest(Insights(RagStore(collections, ticker, edgar, ret),
                                                                         ticker, Topics, ret.rank))))
               == Returned(r.analysis))
      && (r.RagFailed? && r.failedTicker.Some? ==> data.FilingsOk?)
      && (data.FilingsOk? ==>
            var consulted := Consult(ai, FilingsPrompt(ticker, InsightsDigest(
                               Insights(RagStore(collections, ticker, edgar, ret), ticker, Topics, ret.rank))));
            && (consulted.Returned? ==>
                  r == RagOk(ticker, data.totalFilings, |Documents(data.filings)|, consulted.value))
            && (consulted.Raised? ==> r == RagFailed(Some(ticker), consulted.error)))
  {
  }

  /** Section `k` of the digest sits right after the sections before it, and
      the digest is empty exactly when there are no insights. */
  lemma {:induction false} DigestLayout(insights: seq<(string, string)>, k: nat, i: nat)
    requires k < |insights| && i < |Section(insights[k])|
    ensures |InsightsDigest(insights[..k])| + i < |InsightsDigest(insights)|
    ensures InsightsDigest(insights)[|InsightsDigest(insights[..k])| + i] == Section(insights[k])[i]
    ensures InsightsDigest(insights) != ""
  {
    FlatMapAt(insights, Section, k, i);
  }

  lemma {:induction false} DigestEmpty(insights: seq<(string, string)>)
    ensures InsightsDigest(insights) == "" <==> |insights| == 0
  {
    if |insights| > 0 {
      DigestLayout(insights, 0, 0);
    }
  }
}
