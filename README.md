# finsight backend, modelled in Dafny

finsight is a stock-research service. A request for a ticker runs four analyst stages:

- **fundamentals**: market data and a financial digest;
- **news sentiment**;
- **technical indicators**: RSI, MACD, moving averages, Bollinger bands, and a majority vote;
- **SEC filings**: EDGAR filings are fetched, cleaned, chunked into a per-ticker vector collection and queried on five fixed topics.

An orchestrator then merges the four stages into one final recommendation. A web API around the pipeline adds:

- authentication;
- a free-tier daily quota;
- Stripe billing, which moves accounts between the `free` and `alpha` tiers;
- a chart endpoint;
- a ticker search with a fuzzy fallback.

This project models that deterministic core. Each source file becomes one module:

| module | models |
|---|---|
| `Common` | Option/Outcome (an `Outcome` is a value or the Python exception raised), a JSON value type, IEEE-style floats for the divisions that can give inf or NaN, and Python's string operations (`find`, `rfind`, `strip`, `upper`, slices) |
| `TechnicalIndicators` | `tools/technical_indicators.py`; the EWM and standard-deviation values are a `Numerics` parameter |
| `VectorStore` | `tools/vector_store.py`; the collections are a class `Store` holding a map from collection name to entries, and the embedder and the nearest-neighbour ranking are parameters |
| `SecFetcher` | `tools/sec_fetcher.py`; the HTTP responses are parameters |
| `DataFetcher` | `tools/data_fetcher.py`; the market data is a parameter |
| `AgentCommon` | the strict-then-salvage parse shared by the four stages |
| `FinancialAgent`, `SentimentAgent`, `TechnicalAgent`, `RagAgent` | the four stages in `agents/` |
| `Orchestrator` | `agents/orchestrator.py` |
| `Accounts` | `backend/auth.py`; the `profiles` and `usage_logs` tables are the class `ProfileTable` |
| `Payments` | `backend/payments.py` |
| `Api`, `Chart`, `Search` | the request handlers of `backend/main.py` |

Imperative code becomes methods with loops and invariants, each proved equal to a specification function. Those functions carry the lemmas. This covers:

- the chunking loop;
- the index build;
- the topic loop;
- the filing selection and aggregation loops;
- the digest loops;
- the orchestrator's stage sequence;
- the quota, the webhook and the analysis endpoint.

Pure code becomes functions and lemmas.

## Model

| member | source | states |
|---|---|---|
| TechnicalIndicators.Gains | tools/technical_indicators.py:20-21 | one gain per close, none negative |
| TechnicalIndicators.Losses | tools/technical_indicators.py:20-22 | one loss per close, none negative |
| TechnicalIndicators.Rsi | tools/technical_indicators.py:23-24 | a positive average loss gives a finite RSI in [0, 100); no losses and some gain give 100; 0/0 gives NaN |
| TechnicalIndicators.RsiRange | tools/technical_indicators.py:20-24 | with average gain >= 0 and average loss > 0, RSI is finite and equals 100 * gain / (gain + loss), the share of gains |
| TechnicalIndicators.RsiRule | tools/technical_indicators.py:68-76 | BULLISH iff RSI < 30, BEARISH iff RSI > 70, NEUTRAL otherwise (30, 70 and NaN included) |
| TechnicalIndicators.MacdRule | tools/technical_indicators.py:79-87 | BULLISH iff histogram > 0 and MACD > signal; BEARISH iff histogram < 0 and MACD < signal; else NEUTRAL |
| TechnicalIndicators.MaRule | tools/technical_indicators.py:90-98 | BULLISH iff price and SMA-50 both exceed SMA-200; BEARISH iff both are below it; else NEUTRAL (NaN averages included) |
| TechnicalIndicators.BbRule | tools/technical_indicators.py:101-109 | BULLISH iff band position < 20, BEARISH iff > 80, else NEUTRAL |
| TechnicalIndicators.BandsOf | tools/technical_indicators.py:38-47 | bands symmetric about the middle; the position is that of the last close |
| TechnicalIndicators.InterpretSignals | tools/technical_indicators.py:65-120 | the append-and-count loop yields the signal list, the two counts and the vote of the specification |
| TechnicalIndicators.CalculateIndicators | tools/technical_indicators.py:5-152 | the imperative engine equals the indicator function on every history |
| TechnicalIndicators.CountBoth | tools/technical_indicators.py:112-113 | bullish plus bearish counts never exceed the number of signals |
| TechnicalIndicators.AssembleVotes | tools/technical_indicators.py:112-120 | four signals named RSI, MACD, MA, BBANDS in that order; bullish + bearish <= 4; overall BULLISH iff >= 3 bullish, BEARISH iff >= 3 bearish, never both |
| TechnicalIndicators.MajorityVote | tools/technical_indicators.py:112-120 | the same vote facts for every successful engine run |
| TechnicalIndicators.RollingMeanBounds | tools/technical_indicators.py:50-52 | a full-window rolling mean is finite and lies between the minimum and maximum of the last n values |
| TechnicalIndicators.SupportBounds | tools/technical_indicators.py:61-62 | the 52-row high is >= each of the last 52 highs and is one of them; the same for the low |
| TechnicalIndicators.FailureIffShort | tools/technical_indicators.py:136-152 | the engine fails iff the history has fewer than 20 rows: an empty one with the IndexError, 1 to 19 rows with the int(NaN) ValueError |
| TechnicalIndicators.ShortHistoryTrendNeutral | tools/technical_indicators.py:90-98 | with fewer than 200 rows the trend signal is NEUTRAL |
| TechnicalIndicators.MacdHistogramConsistent | tools/technical_indicators.py:31-35 | on a successful run the histogram is MACD minus signal, and the MACD signal is BULLISH iff MACD > signal, BEARISH iff MACD < signal |
| VectorStore.RFindSlice | tools/vector_store.py:25 | `rfind` on a slice, shifted by `lo`, is the last index of the character in that range, or -1 |
| VectorStore.WindowEndFacts | tools/vector_store.py:19-28 | a window is non-empty and at most `chunk_size` long; a window cut short ends on a '.' past 70% of it; the next start moves forward |
| VectorStore.WindowChunkIsStrip | tools/vector_store.py:30 | the stored chunk is `text[start:end].strip()` |
| VectorStore.LongChunksKeep | tools/vector_store.py:33 | the filter keeps exactly the chunks longer than 50 characters, each one of the input |
| VectorStore.LongChunksAppend | tools/vector_store.py:33 | filtering a concatenation is the concatenation of the filtered parts, so the filter keeps order |
| VectorStore.LongChunksOne | tools/vector_store.py:33 | a single chunk survives iff it is longer than 50 characters |
| VectorStore.NextWindow | tools/vector_store.py:20-28 | the loop body computes the specified window end and its stripped text |
| VectorStore.ChunkText | tools/vector_store.py:13-33 | the windowing loop returns exactly the specified chunks |
| VectorStore.WindowBounds | tools/vector_store.py:19-31 | each window lies inside the text, is non-empty and at most `chunk_size`; the first starts where the loop starts |
| VectorStore.WindowsChain | tools/vector_store.py:31 | each next window starts `overlap` before the previous end, strictly after the previous start |
| VectorStore.WindowsReachEnd | tools/vector_store.py:19-24 | the last window ends at the end of the text |
| VectorStore.WindowsCover | tools/vector_store.py:19-31 | every index of the text lies in some window |
| VectorStore.WindowsSnap | tools/vector_store.py:24-28 | a window shorter than `chunk_size` that is not at the end ends just after a '.' beyond 70% of the window |
| VectorStore.ChunkLengths | tools/vector_store.py:30-33 | `Chunks`: every chunk returned is longer than 50 and at most `chunk_size` characters |
| VectorStore.CollectChunks | tools/vector_store.py:59-74 | the nested loop builds the three parallel lists, of equal length, equal to the specification's documents, ids and metadata |
| VectorStore.CollectFilingChunks | tools/vector_store.py:67-74 | one filing's block is appended to each list |
| VectorStore.Store.BuildVectorStore | tools/vector_store.py:36-95 | only the ticker's collection is replaced, by the rebuilt entries; the count is their number |
| VectorStore.Store.QueryVectorStore | tools/vector_store.py:98-129 | returns the specified query result and changes nothing |
| VectorStore.Store.GetSecInsights | tools/vector_store.py:132-165 | failed without success status, store untouched; else the store is rebuilt and the insights are the specified ones |
| VectorStore.Store.AskTopics | tools/vector_store.py:152-158 | the topic loop yields the specified insights |
| VectorStore.EmbedInBatches | tools/vector_store.py:78-84 | batches of 32 give one vector per document, in document order |
| VectorStore.RebuildLeavesOthers | tools/vector_store.py:47-57 | a rebuild leaves every other ticker's collection as it was |
| VectorStore.IndexLayout | tools/vector_store.py:63-92 | chunk i of filing k sits at offset i of its block, with id `type_date_i`, chunk index i and its own vector |
| VectorStore.QueryBounded | tools/vector_store.py:112-115 | at most min(top_k, count) hits; none when the collection is missing or ranking raised |
| VectorStore.InsightsSound | tools/vector_store.py:152-158 | each insight answers a topic whose query had hits; its text is at most 1000 characters |
| VectorStore.InsightsComplete | tools/vector_store.py:152-158 | each topic with hits has its insight: the first three hit texts joined and cut at 1000 |
| VectorStore.InsightsCount | tools/vector_store.py:152-158 | no more insights than topics |
| SecFetcher.ZFill | tools/sec_fetcher.py:28 | the result is `max(width, len)` long and ends with the digits |
| SecFetcher.FormatCik | tools/sec_fetcher.py:28 | at least ten decimal digits whose value, read back as a number, is the CIK |
| SecFetcher.ZFillValue | tools/sec_fetcher.py:28 | zero padding keeps the value of a string of digits |
| SecFetcher.FormatCikPadding | tools/sec_fetcher.py:28 | ten characters for CIKs of up to ten digits; the digits are a suffix |
| SecFetcher.FirstMatch | tools/sec_fetcher.py:26-27 | the first entry whose ticker matches case-insensitively, or -1 when none does |
| SecFetcher.GetCikFromTicker | tools/sec_fetcher.py:15-35 | the padded CIK of the first match; None on no match or a failed request |
| SecFetcher.GetRecentFilings | tools/sec_fetcher.py:38-63 | the loop returns the specified selection, or [] when the request or an index raised |
| SecFetcher.SelectionStep | tools/sec_fetcher.py:51-52 | an index is taken iff it matches and fewer than `count` matches precede it |
| SecFetcher.SelectedAt | tools/sec_fetcher.py:51-58 | a match taken while fewer than `count` are held is the next selected position |
| SecFetcher.SelectedIsFirstMatches | tools/sec_fetcher.py:51-58 | positions of the form, increasing, a prefix of all matches of length min(`count`, number of matches); none for `count` <= 0 |
| SecFetcher.RecentFilingsShape | tools/sec_fetcher.py:51-60 | at most `count` entries, each of the requested form; entry j pairs the three arrays at the j-th selected position; [] when the request or an index raised |
| SecFetcher.StripTags | tools/sec_fetcher.py:104 | each leftmost `<...>` tag becomes one space |
| SecFetcher.StripTagsTagFree | tools/sec_fetcher.py:104 | after stripping, no tag pattern matches anywhere |
| SecFetcher.CollapseWhitespace | tools/sec_fetcher.py:105 | each whitespace run becomes one space |
| SecFetcher.CollapseCollapsed | tools/sec_fetcher.py:105 | the result holds only plain spaces as whitespace, never two in a row |
| SecFetcher.CleanTextClean | tools/sec_fetcher.py:104-108 | cleaned text has no tag, collapsed whitespace, no leading whitespace, and at most 50 000 characters |
| SecFetcher.AccessionPath | tools/sec_fetcher.py:70 | the accession number with no '-' left, no longer than it |
| SecFetcher.AccessionPathAppend | tools/sec_fetcher.py:70 | the removal maps a concatenation to the concatenation of its parts, drops '-' and keeps every other character |
| SecFetcher.AccessionPathKeepsOthers | tools/sec_fetcher.py:70 | an accession number without '-' is kept unchanged |
| SecFetcher.IndexUrlOfCik | tools/sec_fetcher.py:70-79 | the index page of a looked-up company is addressed by the unpadded CIK number and the accession number without '-' |
| SecFetcher.ExtractFilingTextCases | tools/sec_fetcher.py:66-112 | `ExtractFilingText`: "" on a failed request, no document link or a non-numeric CIK; otherwise the cleaned document, tag-free, collapsed, at most 50 000 characters |
| SecFetcher.KeepFilingsWithText | tools/sec_fetcher.py:131-141 | the loop keeps exactly the filings with non-empty text, in listing order |
| SecFetcher.GetSecFilingsText | tools/sec_fetcher.py:115-160 | the aggregation loop returns the specified outcome |
| SecFetcher.AllFilingsHaveText | tools/sec_fetcher.py:128-141 | each kept filing has non-empty text and one of the requested forms; at most two filings per requested form type in total |
| SecFetcher.AllFilingsPerForm | tools/sec_fetcher.py:128-141 | over distinct form types, each requested type contributes at most `MaxFilings` filings and any other type none |
| SecFetcher.FormOrder | tools/sec_fetcher.py:128-141 | the 10-K filings precede the 10-Q filings |
| SecFetcher.FilingsTextOutcome | tools/sec_fetcher.py:122-160 | `FilingsText`: an unknown CIK or no text fails; success keeps only filings with text, at most two 10-K and at most two 10-Q (`CountOf`), the 10-K ones first, and counts them |
| DataFetcher.LookbackAge | tools/data_fetcher.py:32-34 | `iloc[-n]`: on a history of at least n rows the reference close is the one n-1 rows before the last; on a shorter history it is the first; a longer lookback never picks a later row |
| DataFetcher.Description | tools/data_fetcher.py:55 | missing summary gives "N/A"; a string or list summary is cut to its first 500 elements (a prefix of length min(len, 500)); any other value raises the slicing TypeError |
| DataFetcher.FinancialFields | tools/data_fetcher.py:59-78 | one entry per financial key |
| DataFetcher.StockDataCases | tools/data_fetcher.py:14-107 | `GetStockData`: empty history gives the error without status; one row fails on `iloc[-2]`; on two rows or more a failing history, profile, description or benchmark request fails with its message, and otherwise the report is produced, with the history, last close, performances and benchmark return |
| DataFetcher.FormatBuckets | tools/data_fetcher.py:110-123 | `FormatLargeNumber`: the unit is the largest of T/B/M whose threshold the value reaches, else dollars, divided by that unit |
| DataFetcher.FormatFallbacks | tools/data_fetcher.py:112-125 | `FormatLargeNumber`: "N/A" exactly for "N/A" and None; `str(num)` exactly when `float()` fails |
| AgentCommon.AnalysisOf | agents/financial_agent.py:89-97 | an object parse is the analysis; a non-object raises the attribute error |
| AgentCommon.SalvageBraces | agents/financial_agent.py:94 | `Salvage`: with both braces in order, the salvage runs from the first '{' to the last '}' |
| AgentCommon.SalvageDegenerate | agents/financial_agent.py:94 | without a '}' the salvage is empty; without a '{' it is at most a trailing '}' |
| AgentCommon.SalvageRecovers | agents/financial_agent.py:94-95 | an object wrapped in brace-free chatter is recovered |
| AgentCommon.SalvageIdempotent | agents/financial_agent.py:94 | salvaging twice is salvaging once |
| AgentCommon.ParseRecovers | agents/financial_agent.py:89-95 | `ParseResponse`: an answer the strict parse rejects, holding an object between brace-free chatter, parses as that object |
| AgentCommon.ConsultRecovers | agents/financial_agent.py:82-95 | `Consult`: an answer wrapping an object in brace-free chatter gives the object's fields |
| FinancialAgent.FinancialFailurePaths | agents/financial_agent.py:17-20 | `RunFinancialAgent`: a failed report short-circuits without a reasoning call; a report without status is not short-circuited |
| FinancialAgent.FinancialSuccess | agents/financial_agent.py:17-105 | `RunFinancialAgent`: a success carries the ticker, the report, the digest and the parsed analysis; on a full report, success exactly when the reasoning call and parse return, else their error escapes |
| SentimentAgent.NewsDigestLoop | agents/sentiment_agent.py:13-21 | the accumulation loop yields the specified digest |
| SentimentAgent.RunSentimentAgent | agents/sentiment_agent.py:8-56 | the method equals the stage function |
| SentimentAgent.NewsDigestEmpty | agents/sentiment_agent.py:18-23 | the digest is empty iff no item has a title, so the placeholder is used exactly then |
| SentimentAgent.NewsDigestPrefix | agents/sentiment_agent.py:14-21 | the digest of the first j items begins the full digest |
| SentimentAgent.NewsLinesAt | agents/sentiment_agent.py:14-21 | item j's lines follow the earlier ones, numbered j+1, so untitled items leave gaps |
| SentimentAgent.SentimentOutcome | agents/sentiment_agent.py:10-56 | `Sentiment`: at most 10 items, all counted; provider or reasoning failure gives failed with the message; when both return, success with that analysis; the ticker is always the input's |
| TechnicalAgent.HistoryGiven | agents/technical_agent.py:12-15 | a given history is used unchanged and the market is not consulted |
| TechnicalAgent.HistoryFetched | agents/technical_agent.py:12-14 | without a history the stage uses the report's; no history key gives the KeyError failure |
| TechnicalAgent.IndicatorFailurePropagates | agents/technical_agent.py:15-17 | an engine failure is passed on with its message, before any reasoning call |
| TechnicalAgent.UntickeredFailureIsShort | agents/technical_agent.py:11-59 | a failure that carries no ticker can only be the engine's, so the history was shorter than the volume window |
| TechnicalAgent.TechnicalSuccess | agents/technical_agent.py:15-57 | `RunTechnicalAgent`: a success returns the indicator set unchanged, with the ticker and parsed analysis; at 20 rows or more the engine returns; then success exactly when the reasoning call and parse return, else failed with the ticker and their message |
| RagAgent.DigestInsights | agents/rag_agent.py:18-20 | the loop yields the specified digest |
| RagAgent.RunRagAgent | agents/rag_agent.py:9-59 | the outcome and the new store equal the stage's functions of the old store |
| RagAgent.DigestLayout | agents/rag_agent.py:19-20 | section k sits right after the earlier sections: topic upper-cased, then the first 500 characters |
| RagAgent.DigestEmpty | agents/rag_agent.py:18-20 | the digest is empty iff there are no insights |
| RagAgent.InsightsLocal | tools/vector_store.py:104-106 | insights read only the ticker's own collection |
| RagAgent.RagIgnoresPriorStore | tools/vector_store.py:47-57 | the result does not depend on the store's prior contents |
| RagAgent.RagStoreIdempotent | tools/vector_store.py:47-57 | running the stage twice leaves the store as running it once |
| RagAgent.RagOutcomeCases | agents/rag_agent.py:12-57 | a failed fetch is passed on and the store untouched; success reports the filing and chunk counts and the parsed analysis; after a successful fetch, success exactly when the reasoning call and parse return, else failed with the ticker and their message |
| Orchestrator.Assemble | agents/orchestrator.py:22-48 | `results` has exactly the keys financial, sentiment, technical, rag |
| Orchestrator.RunStages | agents/orchestrator.py:22-48 | the four try blocks give the specified stage reports, errors and store |
| Orchestrator.Synthesis | agents/orchestrator.py:60-119 | the synthesis step equals its specification |
| Orchestrator.RunOrchestrator | agents/orchestrator.py:14-141 | the method's outcome and store equal the pipeline's functions |
| Orchestrator.OrchestrateStages | agents/orchestrator.py:14-48 | `Orchestrate`: the outcome is the synthesis over the four stage results, each being its own stage's result |
| Orchestrator.HandoffTransparent | agents/orchestrator.py:37-39 | handing over the price history changes no technical result |
| Orchestrator.ErrorsRecordFinancialCrash | agents/orchestrator.py:25-29 | one error iff the fundamentals stage raised, with a placeholder entry; none otherwise |
| Orchestrator.SignalDefaults | agents/orchestrator.py:50-55 | `Signals`: exactly the keys financial, sentiment, technical, sec; each is NEUTRAL when its stage's analysis lacks the signal field, else that field, copied as is |
| Orchestrator.AnalysisOnlyOnSuccess | agents/orchestrator.py:60-63 | a stage has an analysis only when it succeeded |
| Orchestrator.SynthesisOutcome | agents/orchestrator.py:108-119 | a failed call or failed salvage parse is the outcome; a report carries ticker, results, errors, the four signals of `Signals` and the parsed recommendation; a returned call and parse always give a report |
| Orchestrator.ReportTicker | agents/orchestrator.py:15 | the report's ticker is the stripped upper-cased input, stable under normalisation |
| Orchestrator.HeaderDefaults | agents/orchestrator.py:64-73 | without fundamentals the name is the ticker and the price "N/A"; otherwise the report's own |
| Accounts.ProfileTable.GetUserProfile | backend/auth.py:29-34 | the stored profile, or 404 when none |
| Accounts.ProfileTable.CheckUsageLimit | backend/auth.py:37-66 | the table becomes the reset table; the reply is the specified verdict |
| Accounts.ProfileTable.IncrementUsage | backend/auth.py:69-74 | the table becomes the incremented table; 404 when there is no profile |
| Accounts.ProfileTable.LogAnalysis | backend/auth.py:77-86 | one more log row, the profiles unchanged |
| Accounts.LimitRule | backend/auth.py:43-64 | 404 iff no profile; 429 iff free tier with today's count >= 3 (a stale count reads 0); admitted otherwise |
| Accounts.AdmittedCases | backend/auth.py:46-56 | other tiers are always admitted; on a new day every account is admitted with the count reset and dated today |
| Accounts.CheckNeverIncrements | backend/auth.py:37-66 | the check never raises a count or changes another field or account; it is idempotent on one day |
| Accounts.IncrementByOne | backend/auth.py:69-74 | the count grows by exactly one; nothing else changes |
| Accounts.DailyQuota | backend/auth.py:37-74 | over n requests on one day a free account is admitted min(n, 3 - used) times; others n times |
| Payments.HandleWebhook | backend/payments.py:82-125 | the table becomes the specified post-event table; the reply is the specified one |
| Payments.CreateCheckoutSession | backend/payments.py:18-55 | the table and reply equal the checkout specification |
| Payments.CreatePortalSession | backend/payments.py:58-79 | no profile gives 500; no customer id gives 400; else the portal URL or the provider error as 400 |
| Payments.WebhookVerification | backend/payments.py:90-97 | an unverified event is refused with 400 before any update; every verified event gets "ok" |
| Payments.CheckoutUpgrades | backend/payments.py:100-109 | `AfterWebhook`: exactly the session's user moves to "alpha" with the session's subscription; without a user id nothing changes |
| Payments.OtherEventsIgnored | backend/payments.py:99-125 | `AfterWebhook`: other event types change nothing |
| Payments.CancellationDowngrades | backend/payments.py:111-123 | `AfterWebhook`: every holder of the subscription goes back to free without subscription, others untouched; a repeat changes nothing |
| Payments.DowngradeWithoutHolders | backend/payments.py:119-123 | with no holder, the downgrade changes nothing |
| Payments.UpgradeThenCancel | backend/payments.py:100-123 | checkout then cancellation returns the account to free tier |
| Payments.CheckoutCustomerRule | backend/payments.py:25-55 | `CheckoutReply`: a stored customer id is reused; else the created one is stored, even if the session then fails; no profile fails first |
| Api.Authenticate | backend/auth.py:17-26 | a found user is accepted; no user or a failed lookup both give 401 "Invalid or expired token" |
| Api.Subscript | backend/main.py:258-264 | indexing succeeds iff the value is an object holding the key, giving that field |
| Api.TickerValidation | backend/main.py:243-246 | `ValidateTicker`: accepted iff the normalised ticker is 1 to 10 characters; the accepted value is that ticker, without edge spaces |
| Api.ValidTickerStable | backend/main.py:243-246 | an accepted ticker normalises to itself, so the pipeline gets it unchanged |
| Api.AnalyzeStock | backend/main.py:238-276 | reply, tables, log and store equal the endpoint's specified functions of the old state |
| Api.Settle | backend/main.py:257-276 | reply, table and log equal the accounting specification |
| Api.AnalyzeRefusals | backend/main.py:239-250 | `Analyze`: 401, 400 and 404 change nothing; over the limit gives 429 with only the reset applied |
| Api.AnalyzeCharges | backend/main.py:250-271 | `Analyze`: an admitted request is accounted on the reset table, with the pipeline's store |
| Api.AccountRule | backend/main.py:257-276 | `Account`: a failed pipeline gives 500, no count, no log; a returned one counts exactly once; the answer is sent and the `LogEntryFor` row appended iff that row can be built, else a 500 with its message |
| Api.LogEntryRule | backend/main.py:258-264 | the log row holds the recommendation and confidence read from the result, or the KeyError |
| Api.TrimmedResponse | backend/main.py:266-269 | the reply has no price history; everything else is unchanged |
| Api.GetMe | backend/main.py:279-290 | 404 iff no profile; otherwise the user's id and email and the profile's tier and count, the daily limit of 3 present iff free tier |
| Chart.GetChartData | backend/main.py:185-235 | the handler equals the chart specification |
| Chart.Points | backend/main.py:209-218 | one point per bar, in order |
| Chart.UnknownPeriodIsOneMonth | backend/main.py:191-202 | both tables know the same periods; an unknown one is the "1mo" / "1d" chart |
| Chart.ChangeDirection | backend/main.py:220-229 | on a positive first close the change is >= 0 iff the last close is >= the first, and it is the relative move; 0 when the first close is 0 |
| Chart.ChartShape | backend/main.py:203-229 | `ChartOf`: 500 on a failed download, 404 on an empty one, a chart on any other; a chart has one point per bar with its prices, volume truncated toward zero, change from first to last close, positive iff >= 0 |
| Search.CollectLive | backend/main.py:154-164 | the loop yields the specified live hits |
| Search.LiveHitsExact | backend/main.py:157-164 | a hit is produced iff it comes from an EQUITY/ETF quote with a symbol and a name |
| Search.PrefixScores | backend/main.py:172-178 | `Score`: a ticker prefix scores 1.0 and a name prefix at least 0.8 |
| Search.KeptExact | backend/main.py:180 | an entry is kept iff it is in the input and scores > 0.3 |
| Search.KeptAppend | backend/main.py:180 | filtering a concatenation is the concatenation of the filtered parts, so the filter keeps order |
| Search.KeptOne | backend/main.py:180 | a single entry survives iff it scores > 0.3 |
| Search.InsertPermutes | backend/main.py:181 | insertion keeps the multiset |
| Search.InsertSorted | backend/main.py:181 | insertion into a non-increasing list keeps it non-increasing |
| Search.SortDescCorrect | backend/main.py:181 | the sort is a permutation and non-increasing |
| Search.RankedExact | backend/main.py:179-181 | the ranked list holds stocks of the list with their own scores, all > 0.3, every such stock, in non-increasing order |
| Search.FallbackRanked | backend/main.py:179-182 | `Fallback`: at most 8 stocks of the list, all scored > 0.3, non-increasing, and a missing stock above 0.3 only when 8 are returned, none scoring below it |
| Search.SearchCases | backend/main.py:145-184 | `SearchStocks` over the 99-entry list: empty query gives []; when non-empty, the first min(hits, 8) live hits in order; else the fallback |

## Left out

- I/O is parameters or left out. This covers yfinance, SEC EDGAR HTTP and `time.sleep`, Supabase, Stripe calls and signature verification, the Anthropic calls and `json.loads`. The model takes each as a function or a value.
- The report write (agents/orchestrator.py:135-138) and the report read endpoint (backend/main.py:319-327) are file I/O.
- Prints and the logging messages are left out.
- Clocks: today's date and the elapsed seconds logged by `/analyze` are parameters.
- Concurrency races are left out. This covers the thread-pool dispatch of the orchestrator and the read-then-write race of `increment_usage`.
- Floating point:
  - EWM (MACD, EMA-20), rolling standard deviation and `volatility` are given values. `round` to 2 or 4 decimals and `:.1f` formatting are left out, so the rules compare unrounded values.
  - NaN/inf appear only where the code divides. `format_large_number` yields a unit and a divisor, not the decimal text.
  - Python type names in error messages use "float" for every number, where Python says "int" for an integer. This covers the attribute error of a non-object parse, the `TypeError` text of `Api.Subscript` (the log row's subscripts of a non-object recommendation) and that of `DataFetcher.NotSubscriptable` (slicing a numeric business summary).
- Api.TickerValidation: `str.upper()` and `str.lower()` are modelled on the ASCII letters only (`Common.Upper`, `Common.Lower`). Python maps other letters too, and can change the length (`'ß'.upper()` is `'SS'`), so for non-ASCII input the accepted ticker and its length may differ from the source's. The same ASCII-only mapping is behind the rows below.
- Api.ValidateTicker: the normalised ticker is the ASCII upper-casing of the input.
- Orchestrator.Orchestrate: the pipeline's ticker is the ASCII upper-casing of the input (also Orchestrator.ReportTicker).
- VectorStore.CollectionName: the collection name lower-cases ASCII letters only (also VectorStore.RebuildLeavesOthers).
- SecFetcher.FirstMatch: the case-insensitive ticker match compares ASCII upper-casings.
- RagAgent.Section: the topic header is the ASCII upper-casing of the topic.
- Search.Score: the fuzzy score compares ASCII lower-casings (also Search.PrefixScores).
- Chart.ChartOf: the symbol requested is the ASCII upper-casing of the ticker.
- SecFetcher.IndexUrl: `int(cik)` is read only on strings of decimal digits, and anything else counts as the ValueError, which the extractor answers with "". Python's `int` also accepts signs, underscores and surrounding whitespace; the CIK here always comes from `FormatCik`, which gives digits only.
- Accounts.ProfileTable.GetUserProfile: a `.single()` lookup that finds no row is read as returning empty data, the reading the not-found test at backend/auth.py:32-33 assumes. Under it, the auth lookups answer 404, and the checkout and portal lookups at backend/payments.py:25-29 and backend/payments.py:64-68 fail on `None.get`, an unhandled AttributeError answered with 500. A client library that raised on no row would turn the auth 404s into errors as well; that reading is not modelled.
- ValidChunking: the chunking lemmas assume a positive chunk size and an overlap of at most 0.7 of the size. The configured 512/50 meets this, and other values can loop forever. The 0.7 comparison is `10 * offset > 7 * size` on integers.
- The embedder, the ChromaDB nearest-neighbour ranking and `difflib.SequenceMatcher.ratio` are parameters. The search properties hold for any ratio, not only one in [0, 1]. ChromaDB's own validation is left out. Two cases follow from that. When every cleaned filing text is at most 50 characters, `collection.add` receives empty lists, which ChromaDB refuses, so the source's stage fails, while the model's RagAgent.RagOutcome succeeds with 0 chunks indexed. Chunk ids that repeat (two filings of one form type and date give the same `type_date_i` ids) are also kept by the model, where ChromaDB refuses or drops the duplicates.
- Sort stability: the fallback search sort is proved a non-increasing permutation, but not stable.
- News items are taken to be records with a title and a summary. Quote fields that are None are read as "".
- An exception inside the live-search loop is folded into the failure of the whole live call.
- Market calls are taken to be deterministic. The technical stage's own fetch is modelled as a repeat of the call the fundamentals stage made.
- Branches that cannot be reached are not modelled as reachable:
  - the failed-insights branch at agents/rag_agent.py:16-17, since insights always succeed once filings were found;
  - the orchestrator's handlers for the sentiment, technical and SEC stages, which never raise;
  - the status test at backend/main.py:254, since the orchestrator never returns a non-success report;
  - the 404 of `increment_usage` right after a successful check.
- The `FREE_TIER_DAILY_LIMIT` environment override is left out. The limit is the default 3, also in the 429 message and in `/me`.
- Api.TrimmedResponse: `pop("price_history")` is modelled as an empty history, not a missing key.
- Chart.ChartShape: a NaN volume, on which `int()` raises, is not modelled; volumes are reals.
- These endpoints are thin wrappers and are left out:
  - `/`, `/health` and `/history`, which are no more than a table read;
  - `/create-checkout` and `/create-portal`, which call `Payments.CreateCheckoutSession` and `Payments.CreatePortalSession`;
  - the `/webhook` route, which calls `Payments.HandleWebhook`.
- The CORS middleware is left out.
- The frontend, `app.py` and the root `main.py` are UI and CLI code and are left out.

### Where the code and the intended design differ (the model follows the code)

- With 1 to 19 rows, the indicator engine fails as a whole, because `int()` of a NaN 20-row average volume raises. It does not give a NEUTRAL per indicator.
- Insight topics whose query returned nothing are dropped, not passed through.
- A synthesis answer that fails both parses is not caught inside the orchestrator.
- The fundamentals stage lets exceptions escape. It is the only stage that does.
- `/analyze` increments usage before reading `recommendation.recommendation` for the log. When that read raises, the reply is 500 and the count has already been charged.
- A missing profile gives the 404 of `get_user_profile`, as its code reads. The checkout and portal paths have no such branch; there a missing row leaves `profile.data` empty and reading `stripe_customer_id` from it is an unhandled error, modelled as a 500.
