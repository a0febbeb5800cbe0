/**
 * What the four analyst stages and the synthesis step share: the prompt each
 * one sends to the reasoning service, and the strict-then-salvage parse of
 * the service's answer.
 *
 * The reasoning service and `json.loads` are foreign calls: `complete` maps a
 * prompt to the response text (or raises), and `loads` is the strict JSON
 * parser, which either returns a value or raises a JSONDecodeError.
 */
module AgentCommon {
  import opened Common
  import opened DataFetcher
  import opened TechnicalIndicators

  /** The values the financial stage writes into its digest (its line
      layout and number formatting are not modelled). */
  datatype FinancialDigest = FinancialDigest(
    ticker: string,
    company: Company,
    financials: Financials,
    performance: Performance,
    benchmark: Option<Float>,
    volatility: real,
    marketCap: Formatted,
    revenue: Formatted,
    freeCashflow: Formatted)

  /** The prompt of each reasoning call, by the digest it carries. */
  datatype Prompt =
    | FundamentalsPrompt(digest: FinancialDigest)
    | NewsPrompt(newsTicker: string, news: string)
    | TechnicalPrompt(techTicker: string, indicators: IndicatorSet)
    | FilingsPrompt(filingsTicker: string, insights: string)
    | SynthesisPrompt(ticker: string, companyName: Json, currentPrice: Json, sector: Json,
                      signals: map<string, Json>, analyses: seq<map<string, Json>>)

  datatype Reasoning = Reasoning(complete: Prompt -> Outcome<string>, loads: string -> Outcome<Json>)

  // ---------------------------------------------------------------------
  // Salvage parse
  // ---------------------------------------------------------------------

  /** `text[text.find("{"):text.rfind("}") + 1]`, with Python's slice
      semantics for the -1 that a missing brace gives. */
  function Salvage(text: string): string {
    Slice(text, Find(text, '{'), RFind(text, '}') + 1)
  }

  /** `json.loads(text)`, and on a decode error `json.loads` of the salvaged
      text, whose own error is not caught. */
  function ParseResponse(text: string, loads: string -> Outcome<Json>): Outcome<Json> {
    match loads(text)
    case Returned(v) => Returned(v)
    case Raised(_) => loads(Salvage(text))
  }

  /** The Python type name in an AttributeError message. */
  function TypeName(v: Json): string {
    match v
    case JNull => "NoneType"
    case JBool(_) => "bool"
    case JNum(_) => "float"
    case JStr(_) => "str"
    case JArr(_) => "list"
    case JObj(_) => "dict"
  }

  /** The parsed answer of a stage, which the stage then reads with
      `analysis.get(...)`: anything but an object raises there. */
  function AnalysisOf(text: string, loads: string -> Outcome<Json>): (r: Outcome<map<string, Json>>)
    ensures r.Returned? <==> ParseResponse(text, loads).Returned? && ParseResponse(text, loads).value.JObj?
    ensures r.Returned? ==> ParseResponse(text, loads) == Returned(JObj(r.value))
  {
    match ParseResponse(text, loads)
    case Raised(e) => Raised(e)
    case Returned(JObj(fields)) => Returned(fields)
    case Returned(v) => Raised("'" + TypeName(v) + "' object has no attribute 'get'")
  }

  /** One reasoning call and the parse of its answer. */
  function Consult(ai: Reasoning, prompt: Prompt): Outcome<map<string, Json>> {
    match ai.complete(prompt)
    case Raised(e) => Raised(e)
    case Returned(text) => AnalysisOf(text, ai.loads)
  }

  // ---------------------------------------------------------------------
  // Properties of the salvage parse
  // ---------------------------------------------------------------------

  lemma {:induction false} FindIs(s: string, c: char, k: nat)
    requires k < |s| && s[k] == c && c !in s[..k]
    ensures Find(s, c) == k
  {
  }

  lemma {:induction false} RFindIs(s: string, c: char, k: nat)
    requires k < |s| && s[k] == c && c !in s[k + 1..]
    ensures RFind(s, c) == k
  {
  }

  /** A slice from a '{' through a '}'. */
  lemma {:induction false} BracedSlice(text: string, a: int, b: int)
    requires 0 <= a <= b < |text| && text[a] == '{' && text[b] == '}'
    ensures var r := Slice(text, a, b + 1);
      && r == text[a..b + 1]
      && |r| >= 1 && r[0] == '{' && r[|r| - 1] == '}'
  {
  }

  /** The slices a salvage takes when a brace is missing or out of order. */
  lemma {:induction false} DegenerateSlices(text: string, a: int, b: int)
    requires -1 <= a < |text| && -1 <= b < |text|
    ensures Slice(text, a, 0) == []
    ensures a >= 0 && a > b ==> Slice(text, a, b + 1) == []
    ensures a == -1 ==> Slice(text, a, b + 1) == if |text| > 0 && b == |text| - 1 then [text[b]] else []
  {
    if a == -1 && |text| > 0 && b == |text| - 1 {
      assert text[|text| - 1..] == [text[b]];
    }
  }

  /** When both braces occur in order, the salvaged text runs from the first
      '{' through the last '}'. */
  lemma {:induction false} SalvageBraces(text: string)
    requires 0 <= Find(text, '{') <= RFind(text, '}')
    ensures var r := Salvage(text);
      && r == text[Find(text, '{')..RFind(text, '}') + 1]
      && |r| >= 1 && r[0] == '{' && r[|r| - 1] == '}'
  {
    var a, b := Find(text, '{'), RFind(text, '}');
    assert Salvage(text) == Slice(text, a, b + 1);
    BracedSlice(text, a, b);
  }

  /** Without a '}' nothing is salvaged; without a '{' only a trailing '}'
      survives (the slice starts at the last character); a '{' after the
      last '}' gives nothing. */
  lemma {:induction false} SalvageDegenerate(text: string)
    ensures '}' !in text ==> Salvage(text) == ""
    ensures '{' !in text ==> Salvage(text) == if '}' in text && text[|text| - 1] == '}' then "}" else ""
    ensures Find(text, '{') > RFind(text, '}') ==> Salvage(text) == ""
  {
    DegenerateSlices(text, Find(text, '{'), RFind(text, '}'));
    if '}' in text && text[|text| - 1] == '}' {
      assert text[|text| - 1..] == "}";
      RFindIs(text, '}', |text| - 1);
    }
  }

  /** Salvage recovers an object wrapped in chatter without braces. */
  lemma {:induction false} SalvageRecovers(pre: string, obj: string, post: string)
    requires '{' !in pre && '}' !in post
    requires |obj| >= 1 && obj[0] == '{' && obj[|obj| - 1] == '}'
    ensures Salvage(pre + obj + post) == obj
  {
    var text := pre + obj + post;
    var a, b := |pre|, |pre| + |obj| - 1;
    assert text[..a] == pre;
    FindIs(text, '{', a);
    assert text[b + 1..] == post;
    RFindIs(text, '}', b);
    SliceInRange(text, a, b + 1);
    assert text[a..b + 1] == obj;
  }

  /** An answer the strict parse rejects, holding an object between
      chatter without braces, parses as that object. */
  lemma {:induction false} ParseRecovers(pre: string, obj: string, post: string, loads: string -> Outcome<Json>)
    requires '{' !in pre && '}' !in post
    requires |obj| >= 1 && obj[0] == '{' && obj[|obj| - 1] == '}'
    requires loads(pre + obj + post).Raised?
    ensures ParseResponse(pre + obj + post, loads) == loads(obj)
  {
    SalvageRecovers(pre, obj, post);
  }

  /** A reasoning answer that wraps a JSON object in brace-free chatter
      gives that object's fields; a failed call gives its error without a
      parse. */
  lemma {:induction false} ConsultRecovers(ai: Reasoning, prompt: Prompt, pre: string, obj: string, post: string,
                                           fields: map<string, Json>)
    requires ai.complete(prompt) == Returned(pre + obj + post)
    requires '{' !in pre && '}' !in post
    requires |obj| >= 1 && obj[0] == '{' && obj[|obj| - 1] == '}'
    requires ai.loads(pre + obj + post).Raised? && ai.loads(obj) == Returned(JObj(fields))
    ensures Consult(ai, prompt) == Returned(fields)
  {
    ParseRecovers(pre, obj, post, ai.loads);
  }

  /** Salvaging twice is salvaging once. */
  lemma {:induction false} SalvageIdempotent(text: string)
    ensures Salvage(Salvage(text)) == Salvage(text)
  {
    var r := Salvage(text);
    if 0 <= Find(text, '{') <= RFind(text, '}') {
      SalvageBraces(text);
      SalvageRecovers("", r, "");
      assert "" + r + "" == r;
    } else {
      SalvageDegenerate(text);
      if Find(text, '{') == -1 && r == "}" {
        SalvageDegenerate(r);
      }
    }
  }

  /** The strict parse wins when it succeeds; otherwise the answer is the
      parse of the salvaged text, and its failure is the outcome. */
  lemma {:induction false} ParseStrictFirst(text: string, loads: string -> Outcome<Json>)
    ensures loads(text).Returned? ==> ParseResponse(text, loads) == loads(text)
    ensures loads(text).Raised? ==> ParseResponse(text, loads) == loads(Salvage(text))
  {
  }
}
