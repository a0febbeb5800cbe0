/**
 * The HTTP API around the research pipeline: token check, ticker
 * validation, the daily quota, the pipeline run, usage accounting and the
 * trimmed response; and the account summary of `/me`. The identity
 * provider's token lookup and the clock are given as inputs.
 */
module Api {
  import opened Common
  import opened DataFetcher
  import opened VectorStore
  import opened FinancialAgent
  import opened Accounts
  import opened RagAgent
  import opened Orchestrator

  const MaxTickerLength: nat := 10

  const InvalidToken: HttpError := HttpError(401, JStr("Invalid or expired token"))
  const InvalidTicker: HttpError := HttpError(400, JStr("Invalid ticker symbol"))

  datatype User = User(id: UserId, email: string)

  /** `get_current_user`: the identity lookup's outcome is the user, no user,
      or an exception. The "Invalid token" raised for a missing user is
      itself caught by the handler's `except Exception`, so every refusal
      carries the same detail. */
  function Authenticate(lookup: Outcome<Option<User>>): (r: Http<User>)
    ensures r.Rejected? ==> r.error == InvalidToken
    ensures r.Answer? <==> lookup.Returned? && lookup.value.Some?
  {
    match lookup
    case Returned(Some(user)) => Answer(user)
    case _ => Rejected(InvalidToken)
  }

  /** `request.ticker.upper().strip()`, refused when empty or longer than ten
      characters. */
  function ValidateTicker(raw: string): Http<string> {
    var t := Strip(Upper(raw));
    if t == "" || |t| > MaxTickerLength then Rejected(InvalidTicker) else Answer(t)
  }

  /** `v[key]` on a parsed JSON value, with Python's error messages. */
  function Subscript(v: Json, key: string): (r: Outcome<Json>)
    ensures r.Returned? <==> v.JObj? && key in v.fields
    ensures r.Returned? ==> r.value == v.fields[key]
  {
    match v
    case JObj(m) => if key in m then Returned(m[key]) else Raised("'" + key + "'")
    case JArr(_) => Raised("list indices must be integers or slices, not str")
    case JStr(_) => Raised("string indices must be integers, not 'str'")
    case JNull => Raised("'NoneType' object is not subscriptable")
    case JBool(_) => Raised("'bool' object is not subscriptable")
    case JNum(_) => Raised("'float' object is not subscriptable")
  }

  /** The usage-log row of a finished analysis: the recommendation and
      confidence read from the parsed recommendation, which raise when it
      lacks them. */
  function LogEntryFor(result: FinalResult, id: UserId, ticker: string, elapsed: real): Outcome<LogEntry> {
    match Subscript(result.recommendation, "recommendation")
    case Raised(e) => Raised(e)
    case Returned(rec) =>
      match Subscript(result.recommendation, "confidence_score")
      case Raised(e) => Raised(e)
      case Returned(confidence) => Returned(LogEntry(id, ticker, rec, confidence, elapsed))
  }

  /** The fundamentals report without its price history. */
  function TrimReport(report: StageReport): StageReport {
    match report
    case FinancialStage(FinancialOk(t, StockOk(st, c, f, p, v, b, _), a, s)) =>
      FinancialStage(FinancialOk(t, StockOk(st, c, f, p, v, b, []), a, s))
    case _ => report
  }

  /** The response body: `price_history` popped from the fundamentals'
      `raw_data` (an emptied history stands for the missing key). */
  function WithoutPriceHistory(result: FinalResult): FinalResult {
    if "financial" in result.agentResults
    then result.(agentResults := result.agentResults["financial" := TrimReport(result.agentResults["financial"])])
    else result
  }

  /** What a request to `/analyze` leaves behind: the reply, the two tables
      and the vector store. */
  datatype Served = Served(reply: Http<FinalResult>, rows: map<UserId, Profile>, logs: seq<LogEntry>,
                           collections: map<string, seq<Entry>>)

  /** The usage accounting once the pipeline has run: a raised pipeline
      becomes a 500 carrying its message and costs nothing; otherwise the
      count is raised, and a recommendation without the logged fields is a
      500 that still costs the analysis. */
  function Account(rows: map<UserId, Profile>, logs: seq<LogEntry>, id: UserId, ticker: string,
                   o: Outcome<FinalResult>, elapsed: real): (Http<FinalResult>, map<UserId, Profile>, seq<LogEntry>)
  {
    match o
    case Raised(e) => (Rejected(HttpError(500, JStr(e))), rows, logs)
    case Returned(result) =>
      match LogEntryFor(result, id, ticker, elapsed)
      case Raised(e) => (Rejected(HttpError(500, JStr(e))), Incremented(rows, id), logs)
      case Returned(entry) => (Answer(WithoutPriceHistory(result)), Incremented(rows, id), logs + [entry])
  }

  /** `analyze_stock` on the tables and the store as they were before: the
      token, then the ticker, then the quota, then the pipeline, which
      normalises the ticker once more (a no-op by `ValidTickerStable`). */
  function Analyze(rows: map<UserId, Profile>, logs: seq<LogEntry>, collections: map<string, seq<Entry>>,
                   auth: Outcome<Option<User>>, raw: string, today: string, w: World, elapsed: real): Served
  {
    match Authenticate(auth)
    case Rejected(e) => Served(Rejected(e), rows, logs, collections)
    case Answer(user) =>
      match ValidateTicker(raw)
      case Rejected(e) => Served(Rejected(e), rows, logs, collections)
      case Answer(ticker) =>
        var checked := UsageRows(rows, user.id, today);
        match UsageCheck(rows, user.id, today)
        case Rejected(e) => Served(Rejected(e), checked, logs, collections)
        case Answer(_) =>
          var settled := Account(checked, logs, user.id, ticker, Orchestrate(collections, ticker, w), elapsed);
          Served(settled.0, settled.1, settled.2, RagStore(collections, Strip(Upper(ticker)), w.edgar, w.ret))
  }

  /** `analyze_stock`. */
  method AnalyzeStock(table: ProfileTable, store: Store, auth: Outcome<Option<User>>, rawTicker: string,
                      today: string, w: World, elapsed: real) returns (r: Http<FinalResult>)
    modifies table, store
    ensures var s := Analyze(old(table.rows), old(table.logs), old(store.collections), auth, rawTicker, today, w, elapsed);
      r == s.reply && table.rows == s.rows && table.logs == s.logs && store.collections == s.collections
  {
    var user := Authenticate(auth);
    if user.Rejected? {
      return Rejected(user.error);
    }
    var ticker := ValidateTicker(rawTicker);
    if ticker.Rejected? {
      return Rejected(ticker.error);
    }
    var profile := table.CheckUsageLimit(user.value.id, today);
    if profile.Rejected? {
      return Rejected(profile.error);
    }
    var result := RunOrchestrator(store, ticker.value, w);
    r := Settle(table, user.value.id, ticker.value, result, elapsed);
  }

  /** The usage accounting of `analyze_stock` once the pipeline has run. */
  method Settle(table: ProfileTable, id: UserId, ticker: string, result: Outcome<FinalResult>, elapsed: real)
    returns (r: Http<FinalResult>)
    modifies table
    ensures (r, table.rows, table.logs) == Account(old(table.rows), old(table.logs), id, ticker, result, elapsed)
  {
    if result.Raised? {
      return Rejected(HttpError(500, JStr(result.error)));
    }
    var _ := table.IncrementUsage(id);
    var entry := LogEntryFor(result.value, id, ticker, elapsed);
    if entry.Raised? {
      return Rejected(HttpError(500, JStr(entry.error)));
    }
    table.LogAnalysis(entry.value);
    r := Answer(WithoutPriceHistory(result.value));
  }

  /** The body of `/me`. */
  datatype Me = Me(id: UserId, email: string, tier: string, analysesToday: nat, dailyLimit: Option<nat>)

  /** `get_me`: the profile's tier and count, and the daily limit for the
      free tier only. */
  function GetMe(rows: map<UserId, Profile>, user: User): (r: Http<Me>)
    ensures user.id !in rows <==> r == Rejected(ProfileNotFound)
    ensures r.Answer? ==>
      && user.id in rows && r.value.id == user.id && r.value.email == user.email
      && r.value.tier == rows[user.id].tier && r.value.analysesToday == rows[user.id].analysesToday
    ensures r.Answer? ==> (r.value.dailyLimit.Some? <==> r.value.tier == FreeTier)
    ensures r.Answer? ==> r.value.dailyLimit.Some? ==> r.value.dailyLimit.value == FreeTierDailyLimit
  {
    if user.id !in rows then Rejected(ProfileNotFound)
    else
      var p := rows[user.id];
      Answer(Me(user.id, user.email, p.tier, p.analysesToday,
                if p.tier == FreeTier then Some(FreeTierDailyLimit) else None))
  }

  // ---------------------------------------------------------------------
  // Properties
  // ---------------------------------------------------------------------

  /** A valid ticker is the upper-cased, stripped request: non-empty, at
      most ten characters and free of surrounding whitespace; anything else
      is refused. */
  lemma {:induction false} TickerValidation(raw: string)
    ensures var t := Strip(Upper(raw));
      && (ValidateTicker(raw).Rejected? <==> t == "" || |t| > MaxTickerLength)
      && (ValidateTicker(raw).Answer? ==>
            && ValidateTicker(raw).value == t
            && 0 < |t| <= MaxTickerLength
            && !IsSpace(t[0]) && !IsSpace(t[|t| - 1]))
  {
  }

  /** The pipeline normalises the ticker again; on a validated ticker that
      changes nothing. */
  lemma {:induction false} ValidTickerStable(raw: string)
    ensures ValidateTicker(raw).Answer? ==>
      Strip(Upper(ValidateTicker(raw).value)) == ValidateTicker(raw).value
  {
    NormalizeTickerIdempotent(raw);
  }

  /** The response differs from the pipeline's report only in the emptied
      price history of the fundamentals' raw data. */
  lemma {:induction false} TrimmedResponse(result: FinalResult)
    ensures var out := WithoutPriceHistory(result);
      && out.(agentResults := result.agentResults) == result
      && out.agentResults.Keys == result.agentResults.Keys
      && (forall k | k in result.agentResults && k != "financial" :: out.agentResults[k] == result.agentResults[k])
      && ("financial" in result.agentResults ==>
            var before := result.agentResults["financial"];
            var after := out.agentResults["financial"];
            && (before.FinancialStage? && before.financial.FinancialOk? && before.financial.rawData.StockOk? ==>
                  && after.FinancialStage? && after.financial.FinancialOk? && after.financial.rawData.StockOk?
                  && after.financial.rawData == before.financial.rawData.(priceHistory := [])
                  && after.financial.(rawData := before.financial.rawData) == before.financial)
            && (!(before.FinancialStage? && before.financial.FinancialOk? && before.financial.rawData.StockOk?) ==>
                  after == before))
  {
  }

  /** Refusals before the pipeline: a bad token or ticker changes nothing;
      an exhausted free account is refused with the 429 after its stale
      count was reset, and neither the pipeline, the count nor the log
      moves. */
  lemma {:induction false} AnalyzeRefusals(rows: map<UserId, Profile>, logs: seq<LogEntry>, collections: map<string, seq<Entry>>,
                        auth: Outcome<Option<User>>, raw: string, today: string, w: World, elapsed: real)
    ensures var s := Analyze(rows, logs, collections, auth, raw, today, w, elapsed);
      && (Authenticate(auth).Rejected? ==> s == Served(Rejected(InvalidToken), rows, logs, collections))
      && (Authenticate(auth).Answer? && ValidateTicker(raw).Rejected? ==>
            s == Served(Rejected(InvalidTicker), rows, logs, collections))
      && (Authenticate(auth).Answer? && ValidateTicker(raw).Answer? ==>
            var id := Authenticate(auth).value.id;
            && (id !in rows ==> s == Served(Rejected(ProfileNotFound), rows, logs, collections))
            && (id in rows && OverLimit(Fresh(rows[id], today)) ==>
                  s == Served(Rejected(LimitReached), UsageRows(rows, id, today), logs, collections)))
  {
  }

  /** The accounting after the pipeline: the requester is charged exactly
      when the pipeline returned, by one analysis and on no other row; a log
      row naming the requester and the ticker is added exactly when an
      answer is sent, which is exactly when the log row can be built, and
      the answer is the pipeline's report; a log row that cannot be built
      is a 500 carrying its message, after the charge. */
  lemma {:induction false} AccountRule(rows: map<UserId, Profile>, logs: seq<LogEntry>, id: UserId, ticker: string,
                    o: Outcome<FinalResult>, elapsed: real)
    requires id in rows
    ensures var settled := Account(rows, logs, id, ticker, o, elapsed);
      var reply := settled.0;
      var rows' := settled.1;
      var logs' := settled.2;
      && rows'.Keys == rows.Keys
      && (forall u | u in rows && u != id :: rows'[u] == rows[u])
      && rows'[id] == rows[id].(analysesToday := rows[id].analysesToday + (if o.Returned? then 1 else 0))
      && (o.Raised? ==> reply == Rejected(HttpError(500, JStr(o.error))))
      && (reply.Answer? ==>
            && o.Returned? && reply.value == WithoutPriceHistory(o.value)
            && |logs'| == |logs| + 1 && logs'[..|logs|] == logs
            && logs'[|logs|].userId == id && logs'[|logs|].ticker == ticker
            && logs'[|logs|] == LogEntryFor(o.value, id, ticker, elapsed).value)
      && (reply.Rejected? ==> logs' == logs)
      && (o.Returned? ==>
            var entry := LogEntryFor(o.value, id, ticker, elapsed);
            && (reply.Answer? <==> entry.Returned?)
            && (entry.Raised? ==> reply == Rejected(HttpError(500, JStr(entry.error)))))
  {
    assert (logs + [LogEntry(id, ticker, JNull, JNull, elapsed)])[..|logs|] == logs;
    if o.Returned? {
      var entry := LogEntryFor(o.value, id, ticker, elapsed);
      if entry.Returned? {
        assert (logs + [entry.value])[..|logs|] == logs;
      }
    }
  }

  /** An admitted request is accounted on the table with today's reset
      applied, and the store is the pipeline's. */
  lemma {:induction false} AnalyzeCharges(rows: map<UserId, Profile>, logs: seq<LogEntry>, collections: map<string, seq<Entry>>,
                       auth: Outcome<Option<User>>, raw: string, today: string, w: World, elapsed: real)
    requires Authenticate(auth).Answer? && ValidateTicker(raw).Answer?
    requires UsageCheck(rows, Authenticate(auth).value.id, today).Answer?
    ensures var s := Analyze(rows, logs, collections, auth, raw, today, w, elapsed);
      var id := Authenticate(auth).value.id;
      var ticker := ValidateTicker(raw).value;
      var settled := Account(UsageRows(rows, id, today), logs, id, ticker, Orchestrate(collections, ticker, w), elapsed);
      && id in rows && !OverLimit(Fresh(rows[id], today))
      && UsageRows(rows, id, today)[id] == Fresh(rows[id], today).(lastResetDate := Some(today))
      && s == Served(settled.0, settled.1, settled.2, RagStore(collections, Strip(Upper(ticker)), w.edgar, w.ret))
  {
  }

  /** A log row is written exactly when the recommendation is an object
      holding both logged fields. */
  lemma {:induction false} LogEntryRule(result: FinalResult, id: UserId, ticker: string, elapsed: real)
    ensures var entry := LogEntryFor(result, id, ticker, elapsed);
      && (entry.Returned? <==> result.recommendation.JObj? && "recommendation" in result.recommendation.fields
                               && "confidence_score" in result.recommendation.fields)
      && (entry.Returned? ==>
            entry.value == LogEntry(id, ticker, result.recommendation.fields["recommendation"],
                                    result.recommendation.fields["confidence_score"], elapsed))
      && (result.recommendation.JObj? && "recommendation" !in result.recommendation.fields ==>
            entry == Raised("'recommendation'"))
  {
  }
}
