/**
 * SEC EDGAR filing selection and text cleaning: the ticker-to-CIK lookup,
 * the first-`count` form filter over the parallel submission arrays, the
 * tag-stripping and whitespace-collapsing cleaner, and the aggregation of the
 * most recent 10-K and 10-Q texts.
 *
 * The HTTP responses are inputs: the ticker table, the submission arrays
 * (requested anew for each form type, so one response per form type) and,
 * per filing index page address, the page's main-document links and the
 * body of the first linked document. A request that raises is an
 * `Outcome.Raised`.
 */
module SecFetcher {
  import opened Common

  /** The form types fetched, in order (config.py:36). */
  const FilingTypes: seq<string> := ["10-K", "10-Q"]
  /** Filings fetched per form type (config.py:37). */
  const MaxFilings: nat := 2
  const CikWidth: nat := 10
  const MaxTextLength: nat := 50000
  const ArchivesUrl: string := "https://www.sec.gov/Archives/edgar/data/"

  /** One entry of the exchange's ticker table. */
  datatype TickerEntry = TickerEntry(ticker: string, cikNumber: nat)

  /** `filings.recent` of a submissions document: three parallel arrays. */
  datatype Submissions = Submissions(forms: seq<string>, accessionNumbers: seq<string>, filingDates: seq<string>)

  /** An entry of `get_recent_filings`. */
  datatype FilingRef = FilingRef(formType: string, accessionNumber: string, date: string, cik: string)

  /** A filing with its extracted text. */
  datatype Filing = Filing(filingType: string, date: string, text: string, accessionNumber: string)

  /** The responses behind one filing index page: its main-document links,
      and the body of the first linked document. */
  datatype FilingPages = FilingPages(links: Outcome<seq<string>>, document: Outcome<string>)

  /** The result of `get_sec_filings_text`. */
  datatype FilingsData =
    | FilingsOk(ticker: string, cik: string, filings: seq<Filing>, totalFilings: nat)
    | FilingsFailed(failedTicker: Option<string>, error: string)

  // ---------------------------------------------------------------------
  // CIK lookup
  // ---------------------------------------------------------------------

  /** `s.zfill(width)` for a string of digits. */
  function ZFill(s: string, width: nat): (r: string)
    ensures |r| == if |s| >= width then |s| else width
    ensures r[|r| - |s|..] == s
    ensures forall i | 0 <= i < |r| - |s| :: r[i] == '0'
  {
    if |s| >= width then s else seq(width - |s|, _ => '0') + s
  }

  /** The CIK as the lookup formats it: decimal, zero-padded to ten digits,
      so that reading it back as a number gives the CIK again. */
  function FormatCik(n: nat): (r: string)
    ensures |r| >= CikWidth
    ensures AllDigits(r) && DecimalValue(r) == n
  {
    NatToStringValue(n);
    ZFillValue(NatToString(n), CikWidth);
    ZFill(NatToString(n), CikWidth)
  }

  /** Zero padding keeps the value of a string of digits. */
  lemma {:induction false} ZFillValue(s: string, width: nat)
    requires AllDigits(s)
    ensures AllDigits(ZFill(s, width)) && DecimalValue(ZFill(s, width)) == DecimalValue(s)
  {
    var k := if |s| >= width then 0 else width - |s|;
    LeadingZerosValue(k, s);
    if |s| >= width {
      assert seq(k, _ => '0') + s == s;
    }
  }

  predicate TickerMatches(e: TickerEntry, ticker: string) {
    Upper(e.ticker) == Upper(ticker)
  }

  /** The case-insensitive first match in table order, or -1. */
  function FirstMatch(table: seq<TickerEntry>, ticker: string): (k: int)
    ensures -1 <= k < |table|
    ensures k == -1 <==> forall i | 0 <= i < |table| :: !TickerMatches(table[i], ticker)
    ensures k >= 0 ==> TickerMatches(table[k], ticker) && forall i | 0 <= i < k :: !TickerMatches(table[i], ticker)
  {
    if |table| == 0 then -1
    else if TickerMatches(table[0], ticker) then 0
    else
      var k := FirstMatch(table[1..], ticker);
      if k == -1 then -1 else k + 1
  }

  /** `get_cik_from_ticker`: the padded CIK of the first matching entry; None
      when nothing matches or the table could not be fetched. */
  method GetCikFromTicker(table: Outcome<seq<TickerEntry>>, ticker: string) returns (r: Option<string>)
    ensures table.Raised? ==> r == None
    ensures table.Returned? ==>
      var k := FirstMatch(table.value, ticker);
      r == if k == -1 then None else Some(FormatCik(table.value[k].cikNumber))
  {
    if table.Raised? {
      return None;
    }
    var entries := table.value;
    var i := 0;
    while i < |entries|
      invariant 0 <= i <= |entries|
      invariant forall j | 0 <= j < i :: !TickerMatches(entries[j], ticker)
    {
      if Upper(entries[i].ticker) == Upper(ticker) {
        return Some(FormatCik(entries[i].cikNumber));
      }
      i := i + 1;
    }
    return None;
  }

  // ---------------------------------------------------------------------
  // Recent filings
  // ---------------------------------------------------------------------

  /** The indices below `n` whose form is `filingType`, in order. */
  function Matches(forms: seq<string>, filingType: string, n: nat): (m: seq<nat>)
    requires n <= |forms|
    ensures forall j | 0 <= j < |m| :: m[j] < n && forms[m[j]] == filingType
    ensures forall j, k | 0 <= j < k < |m| :: m[j] < m[k]
    ensures forall i | 0 <= i < n && forms[i] == filingType :: i in m
  {
    if n == 0 then []
    else
      var m := Matches(forms, filingType, n - 1);
      if forms[n - 1] == filingType then m + [n - 1] else m
  }

  /** The positions `get_recent_filings` selects: the first `count` matches. */
  function Selected(forms: seq<string>, filingType: string, count: int): seq<nat> {
    var m := Matches(forms, filingType, |forms|);
    if count <= 0 then [] else Take(m, count)
  }

  /** Whether index `i` exists in all three parallel arrays. */
  predicate InParallelRange(sub: Submissions, i: nat) {
    i < |sub.forms| && i < |sub.accessionNumbers| && i < |sub.filingDates|
  }

  function RefAt(sub: Submissions, cik: string, i: nat): FilingRef
    requires InParallelRange(sub, i)
  {
    FilingRef(sub.forms[i], sub.accessionNumbers[i], sub.filingDates[i], cik)
  }

  /** The entries at `positions`, or None when one of them is missing from
      an array (Python raises IndexError there). */
  function RefsAt(sub: Submissions, cik: string, positions: seq<nat>): (r: Option<seq<FilingRef>>)
    ensures r.Some? <==> forall j | 0 <= j < |positions| :: InParallelRange(sub, positions[j])
    ensures r.Some? ==> (|r.value| == |positions|
      && forall j | 0 <= j < |positions| :: InParallelRange(sub, positions[j]) && r.value[j] == RefAt(sub, cik, positions[j]))
  {
    if |positions| == 0 then Some([])
    else
      var front := RefsAt(sub, cik, positions[..|positions| - 1]);
      var p := positions[|positions| - 1];
      if front.Some? && InParallelRange(sub, p) then Some(front.value + [RefAt(sub, cik, p)])
      else
        assert !InParallelRange(sub, p) ==> !InParallelRange(sub, positions[|positions| - 1]);
        None
  }

  /** `get_recent_filings` as a function: the entries at the selected
      positions, or [] when the request or an index raised. */
  function RecentFilingsOf(sub: Outcome<Submissions>, cik: string, filingType: string, count: int): seq<FilingRef> {
    if sub.Raised? then []
    else RefsAt(sub.value, cik, Selected(sub.value.forms, filingType, count)).GetOr([])
  }

  lemma {:induction false} RefsAtSnoc(sub: Submissions, cik: string, positions: seq<nat>, p: nat)
    requires InParallelRange(sub, p) && RefsAt(sub, cik, positions).Some?
    ensures RefsAt(sub, cik, positions + [p]) == Some(RefsAt(sub, cik, positions).value + [RefAt(sub, cik, p)])
  {
    assert (positions + [p])[..|positions|] == positions;
  }

  lemma {:induction false} TakeSnoc<T>(m: seq<T>, x: T, n: nat)
    ensures Take(m + [x], n) == if |m| < n then m + [x] else Take(m, n)
  {
    if |m| >= n {
      assert (m + [x])[..n] == m[..n];
    }
  }

  lemma {:induction false} MatchesPrefix(forms: seq<string>, filingType: string, n: nat, k: nat)
    requires k <= n <= |forms|
    ensures Matches(forms, filingType, k) <= Matches(forms, filingType, n)
    decreases n
  {
    if n > k {
      MatchesPrefix(forms, filingType, n - 1, k);
      var m := Matches(forms, filingType, n - 1);
      if forms[n - 1] == filingType {
        PrefixExtend(Matches(forms, filingType, k), m, [n - 1]);
      }
    }
  }

  /** `get_recent_filings`: a loop over the forms that appends while fewer
      than `count` entries are held. */
  method GetRecentFilings(sub: Outcome<Submissions>, cik: string, filingType: string, count: int)
    returns (r: seq<FilingRef>)
    ensures r == RecentFilingsOf(sub, cik, filingType, count)
  {
    if sub.Raised? {
      return [];
    }
    var s := sub.value;
    var results: seq<FilingRef> := [];
    ghost var picked: seq<nat> := [];
    for i := 0 to |s.forms|
      invariant count > 0 ==> picked == Take(Matches(s.forms, filingType, i), count)
      invariant count <= 0 ==> picked == []
      invariant RefsAt(s, cik, picked) == Some(results)
    {
      if count > 0 {
        SelectionStep(s.forms, filingType, i, count);
      }
      if s.forms[i] == filingType && |results| < count {
        if i >= |s.accessionNumbers| || i >= |s.filingDates| {
          SelectedAt(s.forms, filingType, i, count);
          PickedMissing(s, cik, Selected(s.forms, filingType, count), |picked|);
          return [];
        }
        RefsAtSnoc(s, cik, picked, i);
        results := results + [RefAt(s, cik, i)];
        picked := picked + [i];
      }
    }
    assert s.forms[..|s.forms|] == s.forms;
    r := results;
  }

  /** One step of the selection loop: index `i` is taken exactly when it
      matches and fewer than `count` matches precede it. */
  lemma {:induction false} SelectionStep(forms: seq<string>, filingType: string, i: nat, count: nat)
    requires i < |forms|
    ensures var before := Take(Matches(forms, filingType, i), count);
      Take(Matches(forms, filingType, i + 1), count)
        == if forms[i] == filingType && |before| < count then before + [i] else before
  {
    var m := Matches(forms, filingType, i);
    TakeSnoc(m, i, count);
  }

  /** A matching index taken while fewer than `count` are held is the next
      selected position. */
  lemma {:induction false} SelectedAt(forms: seq<string>, filingType: string, i: nat, count: int)
    requires i < |forms| && forms[i] == filingType && count > 0
    requires |Take(Matches(forms, filingType, i), count)| < count
    ensures var k := |Matches(forms, filingType, i)|;
      k < |Selected(forms, filingType, count)| && Selected(forms, filingType, count)[k] == i
  {
    var m := Matches(forms, filingType, i);
    MatchesPrefix(forms, filingType, |forms|, i + 1);
    assert Matches(forms, filingType, i + 1) == m + [i];
    var full := Matches(forms, filingType, |forms|);
    assert full[|m|] == (m + [i])[|m|];
  }

  lemma {:induction false} PickedMissing(sub: Submissions, cik: string, positions: seq<nat>, j: nat)
    requires j < |positions| && !InParallelRange(sub, positions[j])
    ensures RefsAt(sub, cik, positions) == None
  {
  }

  // ---------------------------------------------------------------------
  // Text cleaning
  // ---------------------------------------------------------------------

  /** Whether the pattern `<[^>]+>` matches at `i`: a '<', at least one
      character, and the first '>' after them. */
  predicate TagAt(s: string, i: nat)
    requires i < |s|
  {
    s[i] == '<' && Find(s[i + 1..], '>') >= 1
  }

  /** No position of `s` starts a tag (see `TagFreeAt` for the pointwise
      reading). */
  predicate TagFree(s: string)
    decreases |s|
  {
    |s| == 0 || (!TagAt(s, 0) && TagFree(s[1..]))
  }

  /** `re.sub(r'<[^>]+>', ' ', s)`: each leftmost tag becomes one space. */
  function StripTags(s: string): (r: string)
    ensures |r| <= |s|
    decreases |s|
  {
    if |s| == 0 then ""
    else if TagAt(s, 0) then " " + StripTags(s[Find(s[1..], '>') + 2..])
    else [s[0]] + StripTags(s[1..])
  }

  /** `re.sub(r'\s+', ' ', s)`: each run of whitespace becomes one space. */
  function CollapseWhitespace(s: string): (r: string)
    ensures |s| == 0 <==> |r| == 0
    ensures |s| > 0 ==> r[0] == if IsSpace(s[0]) then ' ' else s[0]
    decreases |s|
  {
    if |s| == 0 then ""
    else if IsSpace(s[0]) then " " + CollapseWhitespace(StripLeft(s[1..]))
    else [s[0]] + CollapseWhitespace(s[1..])
  }

  /** Every whitespace character is a plain space, and none follows another. */
  ghost predicate WhitespaceCollapsed(s: string) {
    && (forall i | 0 <= i < |s| && IsSpace(s[i]) :: s[i] == ' ')
    && (forall i, j | 0 <= i < j < |s| && j == i + 1 :: !(IsSpace(s[i]) && IsSpace(s[j])))
  }

  /** The cleaning chain of the extractor. */
  function CleanText(html: string): string {
    Take(Strip(CollapseWhitespace(StripTags(html))), MaxTextLength)
  }

  /** The accession number as it appears in a document path: every '-' removed. */
  function AccessionPath(accession: string): (r: string)
    ensures '-' !in r
    ensures |r| <= |accession|
  {
    if |accession| == 0 then ""
    else if accession[0] == '-' then AccessionPath(accession[1..])
    else [accession[0]] + AccessionPath(accession[1..])
  }

  /** Removing the '-' works character by character: it maps a
      concatenation to the concatenation of the parts, drops a '-' and
      keeps any other character. */
  lemma {:induction false} AccessionPathAppend(a: string, b: string)
    ensures AccessionPath(a + b) == AccessionPath(a) + AccessionPath(b)
    ensures AccessionPath("-") == ""
    ensures forall c: char | c != '-' :: AccessionPath([c]) == [c]
    decreases |a|
  {
    if |a| > 0 {
      AccessionPathAppend(a[1..], b);
      assert (a + b)[1..] == a[1..] + b;
      assert (a + b)[0] == a[0];
    } else {
      assert a + b == b;
    }
    assert AccessionPath("-") == AccessionPath(""[..]);
  }

  /** The address of a filing's index page: the CIK read as a number, the
      accession number without its '-', then the accession number with
      `-index.htm`. `int(cik)` raises on a CIK that is not a string of
      digits, which the extractor answers with "" (None here). */
  function IndexUrl(cik: string, accession: string): Option<string> {
    if |cik| == 0 || !AllDigits(cik) then None
    else Some(ArchivesUrl + NatToString(DecimalValue(cik)) + "/" + AccessionPath(accession) + "/" + accession + "-index.htm")
  }

  lemma {:induction false} AccessionPathKeepsOthers(accession: string)
    requires '-' !in accession
    ensures AccessionPath(accession) == accession
    decreases |accession|
  {
    if |accession| > 0 {
      assert accession[1..] == accession[1..];
      assert forall c | c in accession[1..] :: c in accession;
      AccessionPathKeepsOthers(accession[1..]);
    }
  }

  /** `extract_filing_text`: the responses behind the filing's index page;
      "" when the CIK cannot be read as a number, the index page has no
      main-document link or a request raised, the cleaned document
      otherwise. */
  function ExtractFilingText(cik: string, accession: string, fetch: string -> FilingPages): string {
    var url := IndexUrl(cik, accession);
    if url.None? then ""
    else
      var pages := fetch(url.value);
      if pages.links.Raised? || |pages.links.value| == 0 then ""
      else if pages.document.Raised? then ""
      else CleanText(pages.document.value)
  }

  // ---------------------------------------------------------------------
  // Aggregation
  // ---------------------------------------------------------------------

  /** The filings of one form type that have text, in listing order. */
  function WithText(refs: seq<FilingRef>, cik: string, filingType: string, fetch: string -> FilingPages): (f: seq<Filing>)
    ensures |f| <= |refs|
    ensures forall j | 0 <= j < |f| :: f[j].text != "" && f[j].filingType == filingType
  {
    if |refs| == 0 then []
    else
      var rest := WithText(refs[..|refs| - 1], cik, filingType, fetch);
      var last := refs[|refs| - 1];
      var text := ExtractFilingText(cik, last.accessionNumber, fetch);
      if text != "" then rest + [Filing(filingType, last.date, text, last.accessionNumber)] else rest
  }

  /** All filings with text, form type by form type. */
  function AllFilings(types: seq<string>, subs: string -> Outcome<Submissions>, cik: string, fetch: string -> FilingPages): seq<Filing> {
    if |types| == 0 then []
    else
      AllFilings(types[..|types| - 1], subs, cik, fetch)
      + WithText(RecentFilingsOf(subs(types[|types| - 1]), cik, types[|types| - 1], MaxFilings), cik, types[|types| - 1], fetch)
  }

  /** `get_sec_filings_text` as a function of the responses. */
  function FilingsText(ticker: string, table: Outcome<seq<TickerEntry>>, subs: string -> Outcome<Submissions>,
                       fetch: string -> FilingPages): FilingsData
  {
    var k := if table.Raised? then -1 else FirstMatch(table.value, ticker);
    if k == -1 then FilingsFailed(None, "Could not find SEC CIK for " + ticker)
    else
      var cik := FormatCik(table.value[k].cikNumber);
      var filings := AllFilings(FilingTypes, subs, cik, fetch);
      if |filings| == 0 then FilingsFailed(Some(ticker), "No filing text could be extracted")
      else FilingsOk(ticker, cik, filings, |filings|)
  }

  lemma {:induction false} AllFilingsStep(types: seq<string>, t: nat, subs: string -> Outcome<Submissions>, cik: string, fetch: string -> FilingPages)
    requires t < |types|
    ensures AllFilings(types[..t + 1], subs, cik, fetch)
      == AllFilings(types[..t], subs, cik, fetch) + WithText(RecentFilingsOf(subs(types[t]), cik, types[t], MaxFilings), cik, types[t], fetch)
  {
    assert types[..t + 1][..t] == types[..t];
  }

  lemma {:induction false} WithTextStep(refs: seq<FilingRef>, j: nat, cik: string, filingType: string, fetch: string -> FilingPages)
    requires j < |refs|
    ensures var text := ExtractFilingText(cik, refs[j].accessionNumber, fetch);
      WithText(refs[..j + 1], cik, filingType, fetch)
        == WithText(refs[..j], cik, filingType, fetch)
           + (if text != "" then [Filing(filingType, refs[j].date, text, refs[j].accessionNumber)] else [])
  {
    assert refs[..j + 1][..j] == refs[..j];
  }

  /** The inner loop of the aggregation: extract each listed filing's text
      and keep the filing when the text is non-empty. */
  method KeepFilingsWithText(refs: seq<FilingRef>, cik: string, filingType: string, fetch: string -> FilingPages)
    returns (kept: seq<Filing>)
    ensures kept == WithText(refs, cik, filingType, fetch)
  {
    kept := [];
    for j := 0 to |refs|
      invariant kept == WithText(refs[..j], cik, filingType, fetch)
    {
      var text := ExtractFilingText(cik, refs[j].accessionNumber, fetch);
      WithTextStep(refs, j, cik, filingType, fetch);
      if text != "" {
        kept := kept + [Filing(filingType, refs[j].date, text, refs[j].accessionNumber)];
      }
    }
    assert refs[..|refs|] == refs;
  }

  /** The aggregation loop: for each form type, the recent filings that have
      text; failed when the CIK is unknown or nothing has text. */
  method GetSecFilingsText(ticker: string, table: Outcome<seq<TickerEntry>>, subs: string -> Outcome<Submissions>,
                           fetch: string -> FilingPages) returns (r: FilingsData)
    ensures r == FilingsText(ticker, table, subs, fetch)
  {
    var cik := GetCikFromTicker(table, ticker);
    if cik == None {
      return FilingsFailed(None, "Could not find SEC CIK for " + ticker);
    }
    var all: seq<Filing> := [];
    for t := 0 to |FilingTypes|
      invariant all == AllFilings(FilingTypes[..t], subs, cik.value, fetch)
    {
      var refs := GetRecentFilings(subs(FilingTypes[t]), cik.value, FilingTypes[t], MaxFilings);
      var kept := KeepFilingsWithText(refs, cik.value, FilingTypes[t], fetch);
      AllFilingsStep(FilingTypes, t, subs, cik.value, fetch);
      all := all + kept;
    }
    assert FilingTypes[..|FilingTypes|] == FilingTypes;
    if |all| == 0 {
      return FilingsFailed(Some(ticker), "No filing text could be extracted");
    }
    return FilingsOk(ticker, cik.value, all, |all|);
  }

  // ---------------------------------------------------------------------
  // Properties
  // ---------------------------------------------------------------------

  /** The selection: at most `count` entries, all of the requested form, in
      source order, and exactly the first matches. */
  lemma {:induction false} SelectedIsFirstMatches(forms: seq<string>, filingType: string, count: int)
    ensures var s := Selected(forms, filingType, count);
      && |s| <= (if count <= 0 then 0 else count)
      && (forall j | 0 <= j < |s| :: s[j] < |forms| && forms[s[j]] == filingType)
      && (forall j, k | 0 <= j < k < |s| :: s[j] < s[k])
      && (count > 0 ==> s <= Matches(forms, filingType, |forms|))
      && (count > 0 ==> |s| == Min(count, |Matches(forms, filingType, |forms|)|))
  {
  }

  /** A recent-filings entry carries the requested form type, and there are
      at most `count` of them. When every selected position exists in the
      three arrays, entry j pairs the three arrays at the j-th selected
      position; when one does not, or the request raised, there are none. */
  lemma {:induction false} RecentFilingsShape(sub: Outcome<Submissions>, cik: string, filingType: string, count: int)
    ensures var r := RecentFilingsOf(sub, cik, filingType, count);
      && |r| <= (if count <= 0 then 0 else count)
      && (forall j | 0 <= j < |r| :: r[j].formType == filingType && r[j].cik == cik)
      && (sub.Raised? ==> r == [])
      && (sub.Returned? ==>
            var s := Selected(sub.value.forms, filingType, count);
            if forall j | 0 <= j < |s| :: InParallelRange(sub.value, s[j]) then
              |r| == |s| && forall j | 0 <= j < |r| :: InParallelRange(sub.value, s[j]) && r[j] == RefAt(sub.value, cik, s[j])
            else r == [])
  {
    if sub.Returned? {
      var s := Selected(sub.value.forms, filingType, count);
      SelectedIsFirstMatches(sub.value.forms, filingType, count);
    }
  }

  lemma {:induction false} AllFilingsHaveText(types: seq<string>, subs: string -> Outcome<Submissions>, cik: string, fetch: string -> FilingPages)
    ensures var f := AllFilings(types, subs, cik, fetch);
      && |f| <= MaxFilings * |types|
      && forall j | 0 <= j < |f| :: f[j].text != "" && f[j].filingType in types
  {
    if |types| > 0 {
      var last := types[|types| - 1];
      AllFilingsHaveText(types[..|types| - 1], subs, cik, fetch);
      RecentFilingsShape(subs(last), cik, last, MaxFilings);
      var f := AllFilings(types, subs, cik, fetch);
      var front := AllFilings(types[..|types| - 1], subs, cik, fetch);
      forall j | 0 <= j < |f|
        ensures f[j].text != "" && f[j].filingType in types
      {
        if j < |front| {
          assert f[j] == front[j];
          assert f[j].filingType in types[..|types| - 1];
        }
      }
    }
  }

  /** The number of filings of form type `t`. */
  function CountOf(fs: seq<Filing>, t: string): (n: nat)
    ensures n <= |fs|
  {
    if |fs| == 0 then 0
    else CountOf(fs[..|fs| - 1], t) + (if fs[|fs| - 1].filingType == t then 1 else 0)
  }

  lemma {:induction false} CountOfAppend(a: seq<Filing>, b: seq<Filing>, t: string)
    ensures CountOf(a + b, t) == CountOf(a, t) + CountOf(b, t)
    decreases |b|
  {
    if |b| > 0 {
      assert (a + b)[..|a + b| - 1] == a + b[..|b| - 1];
      CountOfAppend(a, b[..|b| - 1], t);
    } else {
      assert a + b == a;
    }
  }

  /** In a list of one form type, every filing counts for that type and none
      for any other. */
  lemma {:induction false} CountOfUniform(fs: seq<Filing>, t: string, u: string)
    requires forall j | 0 <= j < |fs| :: fs[j].filingType == t
    ensures CountOf(fs, u) == if u == t then |fs| else 0
    decreases |fs|
  {
    if |fs| > 0 {
      CountOfUniform(fs[..|fs| - 1], t, u);
    }
  }

  /** A form type no filing carries counts zero. */
  lemma {:induction false} CountOfAbsent(fs: seq<Filing>, t: string)
    requires forall j | 0 <= j < |fs| :: fs[j].filingType != t
    ensures CountOf(fs, t) == 0
    decreases |fs|
  {
    if |fs| > 0 {
      CountOfAbsent(fs[..|fs| - 1], t);
    }
  }

  /** Over a list of distinct form types, each type contributes at most
      `MaxFilings` filings, and a type not requested contributes none. */
  lemma {:induction false} AllFilingsPerForm(types: seq<string>, subs: string -> Outcome<Submissions>, cik: string,
                                             fetch: string -> FilingPages, t: string)
    requires forall i, j | 0 <= i < j < |types| :: types[i] != types[j]
    ensures var f := AllFilings(types, subs, cik, fetch);
      && (t in types ==> CountOf(f, t) <= MaxFilings)
      && (t !in types ==> CountOf(f, t) == 0)
    decreases |types|
  {
    if |types| > 0 {
      var last := types[|types| - 1];
      var front := types[..|types| - 1];
      var before := AllFilings(front, subs, cik, fetch);
      var refs := RecentFilingsOf(subs(last), cik, last, MaxFilings);
      var w := WithText(refs, cik, last, fetch);
      AllFilingsPerForm(front, subs, cik, fetch, t);
      AllFilingsHaveText(front, subs, cik, fetch);
      RecentFilingsShape(subs(last), cik, last, MaxFilings);
      CountOfAppend(before, w, t);
      CountOfUniform(w, last, t);
      if t == last {
        assert t !in front by {
          forall i | 0 <= i < |front| ensures front[i] != t {
            assert types[i] != types[|types| - 1];
          }
        }
        CountOfAbsent(before, t);
      } else {
        assert t in types ==> t in front by {
          if t in types {
            var i :| 0 <= i < |types| && types[i] == t;
            assert i < |front|;
          }
        }
      }
    }
  }

  /** Two runs of single form types, the second other than the first: a
      filing of the first type is preceded only by filings of that type. */
  lemma {:induction false} GroupedRuns(a: seq<Filing>, b: seq<Filing>, t: string)
    requires forall j | 0 <= j < |a| :: a[j].filingType == t
    requires forall j | 0 <= j < |b| :: b[j].filingType != t
    ensures forall i, j | 0 <= i < j < |a + b| :: (a + b)[j].filingType == t ==> (a + b)[i].filingType == t
  {
    forall i, j | 0 <= i < j < |a + b| && (a + b)[j].filingType == t
      ensures (a + b)[i].filingType == t
    {
      assert (a + b)[i] == a[i];
    }
  }

  /** Over two form types, the filings of the first, then those of the
      second. */
  lemma {:induction false} AllFilingsTwo(types: seq<string>, subs: string -> Outcome<Submissions>, cik: string,
                                         fetch: string -> FilingPages)
    requires |types| == 2
    ensures AllFilings(types, subs, cik, fetch)
         == WithText(RecentFilingsOf(subs(types[0]), cik, types[0], MaxFilings), cik, types[0], fetch)
            + WithText(RecentFilingsOf(subs(types[1]), cik, types[1], MaxFilings), cik, types[1], fetch)
  {
    var w0 := WithText(RecentFilingsOf(subs(types[0]), cik, types[0], MaxFilings), cik, types[0], fetch);
    var w1 := WithText(RecentFilingsOf(subs(types[1]), cik, types[1], MaxFilings), cik, types[1], fetch);
    var none: seq<string> := [];
    assert types[..0] == none;
    assert AllFilings(none, subs, cik, fetch) == [];
    AllFilingsStep(types, 0, subs, cik, fetch);
    assert AllFilings(types[..1], subs, cik, fetch) == w0;
    AllFilingsStep(types, 1, subs, cik, fetch);
    assert types[..2] == types;
  }

  /** The 10-K filings come first, then the 10-Q ones. */
  lemma {:induction false} FormOrder(subs: string -> Outcome<Submissions>, cik: string, fetch: string -> FilingPages)
    ensures var f := AllFilings(FilingTypes, subs, cik, fetch);
      forall i, j | 0 <= i < j < |f| :: f[j].filingType == FilingTypes[0] ==> f[i].filingType == FilingTypes[0]
  {
    var wk := WithText(RecentFilingsOf(subs(FilingTypes[0]), cik, FilingTypes[0], MaxFilings), cik, FilingTypes[0], fetch);
    var wq := WithText(RecentFilingsOf(subs(FilingTypes[1]), cik, FilingTypes[1], MaxFilings), cik, FilingTypes[1], fetch);
    AllFilingsTwo(FilingTypes, subs, cik, fetch);
    GroupedRuns(wk, wq, FilingTypes[0]);
  }

  /** The aggregation: a missing CIK or no text at all fails; success keeps
      only filings with text, of the two form types, at most two of each with
      the 10-K filings first, and reports their number. */
  lemma {:induction false} FilingsTextOutcome(ticker: string, table: Outcome<seq<TickerEntry>>, subs: string -> Outcome<Submissions>,
                           fetch: string -> FilingPages)
    ensures var r := FilingsText(ticker, table, subs, fetch);
      && ((table.Raised? || FirstMatch(table.value, ticker) == -1) ==>
            r == FilingsFailed(None, "Could not find SEC CIK for " + ticker))
      && (r.FilingsOk? ==>
            && r.ticker == ticker
            && r.totalFilings == |r.filings| > 0
            && |r.filings| <= 4
            && (forall j | 0 <= j < |r.filings| :: r.filings[j].text != "" && r.filings[j].filingType in FilingTypes)
            && CountOf(r.filings, "10-K") <= MaxFilings && CountOf(r.filings, "10-Q") <= MaxFilings
            && (forall i, j | 0 <= i < j < |r.filings| ::
                  r.filings[j].filingType == "10-K" ==> r.filings[i].filingType == "10-K"))
  {
    if table.Returned? && FirstMatch(table.value, ticker) != -1 {
      var cik := FormatCik(table.value[FirstMatch(table.value, ticker)].cikNumber);
      AllFilingsHaveText(FilingTypes, subs, cik, fetch);
      AllFilingsPerForm(FilingTypes, subs, cik, fetch, "10-K");
      AllFilingsPerForm(FilingTypes, subs, cik, fetch, "10-Q");
      FormOrder(subs, cik, fetch);
    }
  }

  lemma {:induction false} NoGtSurvives(s: string)
    requires '>' !in s
    ensures '>' !in StripTags(s)
    decreases |s|
  {
    if |s| > 0 {
      assert forall c | c in s[1..] :: c in s;
      if TagAt(s, 0) {
        assert false;
      } else {
        NoGtSurvives(s[1..]);
      }
    }
  }

  lemma {:induction false} TagFreeCons(c: char, t: string)
    requires TagFree(t)
    requires c == '<' ==> Find(t, '>') < 1
    ensures TagFree([c] + t)
  {
    assert ([c] + t)[1..] == t;
  }

  /** After `re.sub(r'<[^>]+>', ' ', s)` the pattern no longer matches. */
  lemma {:induction false} StripTagsTagFree(s: string)
    ensures TagFree(StripTags(s))
    decreases |s|
  {
    if |s| > 0 {
      if TagAt(s, 0) {
        StripTagsTagFree(s[Find(s[1..], '>') + 2..]);
        TagFreeCons(' ', StripTags(s[Find(s[1..], '>') + 2..]));
      } else {
        var rest := StripTags(s[1..]);
        StripTagsTagFree(s[1..]);
        if s[0] == '<' {
          if '>' !in s[1..] {
            NoGtSurvives(s[1..]);
          } else {
            assert s[1] == '>';
            assert !TagAt(s[1..], 0);
            assert rest[0] == '>';
          }
        }
        TagFreeCons(s[0], rest);
      }
    }
  }

  /** An occurrence with no earlier occurrence is what `find` returns. */
  lemma {:induction false} FindFirst(s: string, c: char, k: nat)
    requires k < |s| && s[k] == c && c !in s[..k]
    ensures Find(s, c) == k
    decreases k
  {
    if k > 0 {
      assert s[0] == s[..k][0];
      assert s[1..][..k - 1] == s[..k][1..];
      FindFirst(s[1..], c, k - 1);
    }
  }

  lemma {:induction false} TagInSlice(s: string, a: nat, b: nat, i: nat)
    requires a <= b <= |s| && i < b - a
    ensures TagAt(s[a..b], i) ==> TagAt(s, a + i)
  {
    var t := s[a..b];
    if !TagAt(t, i) { return; }
    var k := Find(t[i + 1..], '>');
    var u := s[a + i + 1..];
    assert u[..k] == t[i + 1..][..k];
    assert u[k] == t[i + 1..][k];
    FindFirst(u, '>', k);
  }

  lemma {:induction false} TagFreePrefix(s: string, b: nat)
    requires TagFree(s) && b <= |s|
    ensures TagFree(s[..b])
    decreases b
  {
    if b > 0 {
      TagInSlice(s, 0, b, 0);
      assert s[..b][1..] == s[1..][..b - 1];
      TagFreePrefix(s[1..], b - 1);
    }
  }

  lemma {:induction false} TagFreeSuffix(s: string, k: nat)
    requires TagFree(s) && k <= |s|
    ensures TagFree(s[k..])
    decreases k
  {
    if k > 0 {
      assert s[1..][k - 1..] == s[k..];
      TagFreeSuffix(s[1..], k - 1);
    }
  }

  lemma {:induction false} TagFreeSlice(s: string, a: nat, b: nat)
    requires TagFree(s) && a <= b <= |s|
    ensures TagFree(s[a..b])
  {
    TagFreeSuffix(s, a);
    TagFreePrefix(s[a..], b - a);
    assert s[a..][..b - a] == s[a..b];
  }

  lemma {:induction false} TagAtTail(s: string, i: nat)
    requires 1 <= i < |s|
    ensures TagAt(s, i) == TagAt(s[1..], i - 1)
  {
    assert s[1..][i - 1 + 1..] == s[i + 1..];
  }

  /** The recursive definition of `TagFree` says that the tag pattern
      matches at no position. */
  lemma {:induction false} TagFreeAt(s: string)
    ensures TagFree(s) <==> forall i | 0 <= i < |s| :: !TagAt(s, i)
    decreases |s|
  {
    if |s| > 0 {
      TagFreeAt(s[1..]);
      if TagFree(s) {
        forall i | 0 <= i < |s|
          ensures !TagAt(s, i)
        {
          if i > 0 {
            TagAtTail(s, i);
          }
        }
      } else if !TagAt(s, 0) {
        var j :| 0 <= j < |s| - 1 && TagAt(s[1..], j);
        TagAtTail(s, j + 1);
      }
    }
  }

  lemma {:induction false} CollapseKeepsNonSpaces(s: string, c: char)
    requires !IsSpace(c) && c !in s
    ensures c !in CollapseWhitespace(s)
    decreases |s|
  {
    if |s| > 0 {
      if IsSpace(s[0]) {
        var t := StripLeft(s[1..]);
        assert forall x | x in t :: x in s;
        CollapseKeepsNonSpaces(t, c);
      } else {
        assert forall x | x in s[1..] :: x in s;
        CollapseKeepsNonSpaces(s[1..], c);
      }
    }
  }

  lemma {:induction false} CollapseTagFree(s: string)
    requires TagFree(s)
    ensures TagFree(CollapseWhitespace(s))
    decreases |s|
  {
    if |s| > 0 {
      var s1 := s[1..];
      TagFreeSuffix(s, 1);
      if IsSpace(s[0]) {
        var t := StripLeft(s1);
        TagFreeSuffix(s1, |s1| - |t|);
        CollapseTagFree(t);
        TagFreeCons(' ', CollapseWhitespace(t));
      } else {
        CollapseTagFree(s1);
        var rest := CollapseWhitespace(s1);
        if s[0] == '<' {
          assert !TagAt(s, 0);
          if '>' in s1 {
            assert s1[0] == '>';
            assert rest[0] == '>';
          } else {
            CollapseKeepsNonSpaces(s1, '>');
          }
        }
        TagFreeCons(s[0], rest);
      }
    }
  }

  lemma {:induction false} CollapseCollapsed(s: string)
    ensures WhitespaceCollapsed(CollapseWhitespace(s))
    decreases |s|
  {
    if |s| > 0 {
      var r := CollapseWhitespace(s);
      var tail := if IsSpace(s[0]) then StripLeft(s[1..]) else s[1..];
      CollapseCollapsed(tail);
      var rt := CollapseWhitespace(tail);
      assert r == [r[0]] + rt;
      forall i | 0 <= i < |r| && IsSpace(r[i])
        ensures r[i] == ' '
      {
        if i > 0 {
          assert r[i] == rt[i - 1];
        }
      }
      forall i, j | 0 <= i < j < |r| && j == i + 1
        ensures !(IsSpace(r[i]) && IsSpace(r[j]))
      {
        assert r[j] == rt[j - 1];
        if i > 0 {
          assert r[i] == rt[i - 1];
        }
      }
    }
  }

  lemma {:induction false} CollapsedSlice(s: string, a: nat, b: nat)
    requires WhitespaceCollapsed(s) && a <= b <= |s|
    ensures WhitespaceCollapsed(s[a..b])
  {
    var t := s[a..b];
    forall i | 0 <= i < |t| && IsSpace(t[i])
      ensures t[i] == ' '
    {
      assert t[i] == s[a + i];
    }
    forall i, j | 0 <= i < j < |t| && j == i + 1
      ensures !(IsSpace(t[i]) && IsSpace(t[j]))
    {
      assert t[i] == s[a + i] && t[j] == s[a + j];
    }
  }

  /** Stripping and truncating keep a text free of tags. */
  lemma {:induction false} TagFreeTrimmed(c: string, n: nat)
    requires TagFree(c)
    ensures TagFree(Take(Strip(c), n))
  {
    TrimmedSlice(c, n);
    TagFreeWithin(c, StripOffset(c), Take(Strip(c), n));
  }

  lemma {:induction false} TagFreeWithin(c: string, o: nat, r: string)
    requires TagFree(c) && o + |r| <= |c| && r == c[o..o + |r|]
    ensures TagFree(r)
  {
    TagFreeSlice(c, o, o + |r|);
  }

  /** Stripping and truncating keep whitespace collapsed. */
  lemma {:induction false} CollapsedTrimmed(c: string, n: nat)
    requires WhitespaceCollapsed(c)
    ensures WhitespaceCollapsed(Take(Strip(c), n))
  {
    TrimmedSlice(c, n);
    CollapsedSlice(c, StripOffset(c), StripOffset(c) + |Take(Strip(c), n)|);
  }

  /** The stripped and truncated text is a slice of the original. */
  lemma {:induction false} TrimmedSlice(c: string, n: nat)
    ensures StripOffset(c) + |Take(Strip(c), n)| <= |c|
    ensures Take(Strip(c), n) == c[StripOffset(c)..StripOffset(c) + |Take(Strip(c), n)|]
  {
    SliceOfSlice(c, StripOffset(c), Strip(c), Take(Strip(c), n));
  }

  lemma {:induction false} CleanTextTagFree(html: string)
    ensures TagFree(CleanText(html))
  {
    var stripped := StripTags(html);
    StripTagsTagFree(html);
    CollapseTagFree(stripped);
    TagFreeTrimmed(CollapseWhitespace(stripped), MaxTextLength);
  }

  lemma {:induction false} CleanTextCollapsed(html: string)
    ensures WhitespaceCollapsed(CleanText(html))
  {
    var stripped := StripTags(html);
    CollapseCollapsed(stripped);
    CollapsedTrimmed(CollapseWhitespace(stripped), MaxTextLength);
  }

  /** The cleaned text: no `<...>` tag left, whitespace runs collapsed to a
      single plain space, no leading whitespace, and at most 50 000
      characters. */
  lemma {:induction false} CleanTextClean(html: string)
    ensures var r := CleanText(html);
      && |r| <= MaxTextLength
      && (forall i | 0 <= i < |r| :: !TagAt(r, i))
      && WhitespaceCollapsed(r)
      && (r == [] || !IsSpace(r[0]))
  {
    CleanTextTagFree(html);
    TagFreeAt(CleanText(html));
    CleanTextCollapsed(html);
  }

  /** The index page of a filing of a looked-up company is addressed by
      the unpadded CIK number and the accession number without '-'. */
  lemma {:induction false} IndexUrlOfCik(n: nat, accession: string)
    ensures IndexUrl(FormatCik(n), accession)
      == Some(ArchivesUrl + NatToString(n) + "/" + AccessionPath(accession) + "/" + accession + "-index.htm")
    ensures '-' !in AccessionPath(accession)
  {
  }

  /** The extractor reads the index page at the looked-up company's
      address; it gives "" when that page or the document raised or the
      page links no document, and otherwise clean text: no tag, collapsed
      whitespace, no leading whitespace, at most 50 000 characters. A CIK
      that is not a string of digits gives "". */
  lemma {:induction false} ExtractFilingTextCases(n: nat, accession: string, fetch: string -> FilingPages, cik: string)
    ensures !AllDigits(cik) ==> ExtractFilingText(cik, accession, fetch) == ""
    ensures var t := ExtractFilingText(FormatCik(n), accession, fetch);
      var pages := fetch(ArchivesUrl + NatToString(n) + "/" + AccessionPath(accession) + "/" + accession + "-index.htm");
      && (pages.links.Raised? || |pages.links.value| == 0 || pages.document.Raised? ==> t == "")
      && (pages.links.Returned? && |pages.links.value| > 0 && pages.document.Returned? ==> t == CleanText(pages.document.value))
      && |t| <= MaxTextLength
      && (forall i | 0 <= i < |t| :: !TagAt(t, i))
      && WhitespaceCollapsed(t)
      && (t == [] || !IsSpace(t[0]))
  {
    IndexUrlOfCik(n, accession);
    var pages := fetch(ArchivesUrl + NatToString(n) + "/" + AccessionPath(accession) + "/" + accession + "-index.htm");
    if pages.links.Returned? && |pages.links.value| > 0 && pages.document.Returned? {
      CleanTextClean(pages.document.value);
    }
  }

  /** Zero padding: ten characters for CIKs of up to ten digits, and the
      digits form a suffix of the padded string. */
  lemma {:induction false} FormatCikPadding(n: nat)
    ensures |FormatCik(n)| == if |NatToString(n)| >= CikWidth then |NatToString(n)| else CikWidth
    ensures FormatCik(n)[|FormatCik(n)| - |NatToString(n)|..] == NatToString(n)
  {
  }
}
