/**
 * The filing chunker and the per-ticker retrieval index.
 *
 * `ChunkText` splits a filing into overlapping windows that snap back to a
 * sentence end. `Store` holds the persistent collections, a map from
 * collection name to its entries. A rebuild replaces one ticker's collection
 * with the chunks of the current filings, a query returns the nearest
 * entries, and the insight step asks five fixed questions.
 *
 * The sentence embedder is a function from text to vector. The
 * nearest-neighbour ranking of a collection for a query is an oracle whose
 * failure is an `Outcome.Raised`.
 */
module VectorStore {
  import opened Common
  import opened SecFetcher

  /** Characters per chunk and overlap between chunks (config.py:29-30). */
  const ChunkSize: nat := 512
  const ChunkOverlap: nat := 50
  /** Results per query (config.py:31). */
  const TopK: nat := 5
  const MinChunkLength: nat := 50
  const BatchSize: nat := 32
  const ChunksPerTopic: nat := 3
  const MaxTopicLength: nat := 1000

  // ---------------------------------------------------------------------
  // Chunking
  // ---------------------------------------------------------------------

  /** One raw window `text[start:end]` of the chunker. */
  datatype Window = Window(start: nat, end: nat)

  /** The parameters the chunking loop terminates for: a positive size and
      an overlap of at most 0.7 of it, which the configured 512/50 meets. */
  predicate ValidChunking(chunkSize: nat, overlap: nat) {
    chunkSize > 0 && 10 * overlap <= 7 * chunkSize
  }

  /** The last index in `text[lo:hi]` holding `c`, as an index of `text`,
      or -1. */
  function LastIndex(text: string, lo: nat, hi: nat, c: char): (r: int)
    requires lo <= hi <= |text|
    ensures r == -1 || (lo <= r < hi && text[r] == c)
    decreases hi - lo
  {
    if hi == lo then -1
    else if text[hi - 1] == c then hi - 1
    else LastIndex(text, lo, hi - 1, c)
  }

  /** `text[lo:hi].rfind(c)` is `LastIndex` counted from `lo`. */
  lemma {:induction false} RFindSlice(text: string, lo: nat, hi: nat, c: char)
    requires lo <= hi <= |text|
    ensures RFind(text[lo..hi], c) == if LastIndex(text, lo, hi, c) < 0 then -1 else LastIndex(text, lo, hi, c) - lo
    decreases hi - lo
  {
    if hi > lo {
      var s := text[lo..hi];
      assert s[|s| - 1] == text[hi - 1];
      if text[hi - 1] != c {
        assert s[..|s| - 1] == text[lo..hi - 1];
        RFindSlice(text, lo, hi - 1, c);
      }
    }
  }

  /** Where the window starting at `start` ends: `chunk_size` characters on,
      or just after the window's last '.' when the window is not at the end
      of the text and that '.' lies beyond 70 percent of the window. */
  function WindowEnd(text: string, chunkSize: nat, start: nat): int {
    var end := start + chunkSize;
    if end < |text| then
      var lastPeriod := LastIndex(text, start, end, '.');
      if lastPeriod >= 0 && 10 * (lastPeriod - start) > 7 * chunkSize then lastPeriod + 1 else end
    else end
  }

  /** A window is non-empty and at most `chunk_size` long; when it is cut
      short it ends on a '.', past 70 percent of the window, and the next
      window still starts after this one. */
  lemma {:induction false} WindowEndFacts(text: string, chunkSize: nat, overlap: nat, start: nat)
    requires ValidChunking(chunkSize, overlap) && start < |text|
    ensures var end := WindowEnd(text, chunkSize, start);
      && start < end - overlap && end <= start + chunkSize
      && (end < start + chunkSize ==>
            && start + chunkSize < |text| && text[end - 1] == '.'
            && 10 * (end - 1 - start) > 7 * chunkSize)
  {

  }

  /** The windows of the chunking loop from `start` on; the next window
      starts `overlap` characters before the current one ends. */
  function Windows(text: string, chunkSize: nat, overlap: nat, start: nat): seq<Window>
    requires ValidChunking(chunkSize, overlap)
    decreases |text| - start
  {
    if start >= |text| then []
    else
      var end := WindowEnd(text, chunkSize, start);
      WindowEndFacts(text, chunkSize, overlap, start);
      [Window(start, end)] + Windows(text, chunkSize, overlap, end - overlap)
  }

  lemma {:induction false} WindowsUnfold(text: string, chunkSize: nat, overlap: nat, start: nat)
    requires ValidChunking(chunkSize, overlap) && start < |text|
    ensures WindowEnd(text, chunkSize, start) - overlap > start
    ensures Windows(text, chunkSize, overlap, start)
         == [Window(start, WindowEnd(text, chunkSize, start))]
          + Windows(text, chunkSize, overlap, WindowEnd(text, chunkSize, start) - overlap)
  {
    WindowEndFacts(text, chunkSize, overlap, start);
  }

  /** The stripped windows, in order. */
  function RawChunks(text: string, ws: seq<Window>): (r: seq<string>)
    ensures |r| == |ws|
  {
    if |ws| == 0 then [] else RawChunks(text, ws[..|ws| - 1]) + [WindowChunk(text, ws[|ws| - 1])]
  }

  /** The stripped text of one window, located by its whitespace edges
      (`WindowChunkIsStrip` shows this is `text[start:end].strip()`). */
  function WindowChunk(text: string, w: Window): string {
    var lo, hi := SliceBound(w.start, |text|), SliceBound(w.end, |text|);
    if lo < hi then
      var a := LeftEdge(text, lo, hi);
      text[a..RightEdge(text, a, hi)]
    else []
  }

  lemma {:induction false} WindowChunkIsStrip(text: string, w: Window)
    ensures WindowChunk(text, w) == Strip(Slice(text, w.start, w.end))
  {
    var lo, hi := SliceBound(w.start, |text|), SliceBound(w.end, |text|);
    if lo < hi {
      StripSlice(text, lo, hi);
    }
  }

  /** `[c for c in chunks if len(c) > 50]`. */
  function LongChunks(chunks: seq<string>): (r: seq<string>)
    ensures |r| <= |chunks|
  {
    if |chunks| == 0 then []
    else if |chunks[0]| > MinChunkLength then [chunks[0]] + LongChunks(chunks[1..])
    else LongChunks(chunks[1..])
  }

  /** The filter keeps exactly the chunks longer than 50 characters. */
  lemma {:induction false} LongChunksKeep(chunks: seq<string>)
    ensures forall i | 0 <= i < |LongChunks(chunks)| :: |LongChunks(chunks)[i]| > MinChunkLength && LongChunks(chunks)[i] in chunks
    ensures forall c | c in chunks && |c| > MinChunkLength :: c in LongChunks(chunks)
  {
    if |chunks| > 0 {
      LongChunksKeep(chunks[1..]);
      assert chunks == [chunks[0]] + chunks[1..];
    }
  }

  /** The filter keeps the order: filtering a concatenation filters each
      part, and a single chunk survives exactly when it is long enough. */
  lemma {:induction false} LongChunksAppend(xs: seq<string>, ys: seq<string>)
    ensures LongChunks(xs + ys) == LongChunks(xs) + LongChunks(ys)
    decreases |xs|
  {
    if |xs| > 0 {
      var x, rest := xs[0], xs[1..];
      LongChunksAppend(rest, ys);
      assert (xs + ys)[1..] == rest + ys;
      assert (xs + ys)[0] == x;
      assert LongChunks(xs) == (if |x| > MinChunkLength then [x] else []) + LongChunks(rest);
      assert LongChunks(xs + ys) == (if |x| > MinChunkLength then [x] else []) + LongChunks(rest + ys);
    } else {
      assert xs + ys == ys;
    }
  }

  /** A single chunk survives the filter exactly when it is long enough. */
  lemma {:induction false} LongChunksOne(x: string)
    ensures LongChunks([x]) == if |x| > MinChunkLength then [x] else []
  {
    assert [x][1..] == [];
  }

  /** What `chunk_text` returns. */
  function Chunks(text: string, chunkSize: nat, overlap: nat): seq<string>
    requires ValidChunking(chunkSize, overlap)
  {
    LongChunks(RawChunks(text, Windows(text, chunkSize, overlap, 0)))
  }

  /** The body of the chunking loop up to the append: the window
      `text[start:start + chunk_size]`, cut back after its last '.' when that
      is not the end of the text and the '.' lies beyond 70 percent of it. */
  method NextWindow(text: string, chunkSize: nat, start: nat) returns (end: int, chunk: string)
    ensures end == WindowEnd(text, chunkSize, start) && chunk == Slice(text, start, end)
  {
    end := start + chunkSize;
    chunk := Slice(text, start, end);
    if end < |text| {
      SliceInRange(text, start, end);
      RFindSlice(text, start, end, '.');
      var lastPeriod := RFind(chunk, '.');
      if 10 * lastPeriod > 7 * chunkSize {
        end := start + lastPeriod + 1;
        chunk := Slice(text, start, end);
      }
    }
  }

  lemma {:induction false} RawChunksSnoc(text: string, done: seq<Window>, w: Window)
    ensures RawChunks(text, done + [w]) == RawChunks(text, done) + [WindowChunk(text, w)]
  {
    assert (done + [w])[..|done|] == done;
  }

  /** One turn of the chunking loop keeps its invariant. */
  lemma {:induction false} ChunkStep(text: string, chunkSize: nat, overlap: nat, start: nat, done: seq<Window>, raw: seq<string>)
    requires ValidChunking(chunkSize, overlap) && start < |text|
    requires Windows(text, chunkSize, overlap, 0) == done + Windows(text, chunkSize, overlap, start)
    requires raw == RawChunks(text, done)
    ensures var end := WindowEnd(text, chunkSize, start);
      && end - overlap > start
      && Windows(text, chunkSize, overlap, 0) == (done + [Window(start, end)]) + Windows(text, chunkSize, overlap, end - overlap)
      && raw + [Strip(Slice(text, start, end))] == RawChunks(text, done + [Window(start, end)])
  {
    var end := WindowEnd(text, chunkSize, start);
    WindowsUnfold(text, chunkSize, overlap, start);
    Regroup(Windows(text, chunkSize, overlap, 0), done, Windows(text, chunkSize, overlap, start),
            [Window(start, end)], Windows(text, chunkSize, overlap, end - overlap));
    RawChunksSnoc(text, done, Window(start, end));
    WindowChunkIsStrip(text, Window(start, end));
  }

  /** `chunk_text`: the windowing loop. */
  method ChunkText(text: string, chunkSize: nat, overlap: nat) returns (chunks: seq<string>)
    requires ValidChunking(chunkSize, overlap)
    ensures chunks == Chunks(text, chunkSize, overlap)
  {
    var raw: seq<string> := [];
    var start: nat := 0;
    ghost var done: seq<Window> := [];
    while start < |text|
      invariant Windows(text, chunkSize, overlap, 0) == done + Windows(text, chunkSize, overlap, start)
      invariant raw == RawChunks(text, done)
      decreases |text| - start
    {
      var end, chunk := NextWindow(text, chunkSize, start);
      ChunkStep(text, chunkSize, overlap, start, done, raw);
      var piece := Strip(chunk);
      raw := raw + [piece];
      done := done + [Window(start, end)];
      start := end - overlap;
    }
    AppendNil(done);
    chunks := LongChunks(raw);
  }

  // ---------------------------------------------------------------------
  // Chunking properties
  // ---------------------------------------------------------------------

  /** Window `i` lies inside the text, after `start`, is non-empty and at
      most `chunk_size` long; the first window starts at `start`. */
  lemma {:induction false} WindowBounds(text: string, chunkSize: nat, overlap: nat, start: nat, i: nat)
    requires ValidChunking(chunkSize, overlap) && i < |Windows(text, chunkSize, overlap, start)|
    ensures var w := Windows(text, chunkSize, overlap, start)[i];
      && start <= w.start < |text| && w.start < w.end <= w.start + chunkSize
      && (i == 0 ==> w.start == start)
    decreases |text| - start
  {
    WindowsUnfold(text, chunkSize, overlap, start);
    WindowEndFacts(text, chunkSize, overlap, start);
    if i > 0 {
      WindowBounds(text, chunkSize, overlap, WindowEnd(text, chunkSize, start) - overlap, i - 1);
    }
  }

  /** Each window after the first starts `overlap` characters before the end
      of the previous one, and strictly after the previous one's start. */
  lemma {:induction false} WindowsChain(text: string, chunkSize: nat, overlap: nat, start: nat, i: nat)
    requires ValidChunking(chunkSize, overlap) && i + 1 < |Windows(text, chunkSize, overlap, start)|
    ensures var ws := Windows(text, chunkSize, overlap, start);
      ws[i + 1].start == ws[i].end - overlap && ws[i].start < ws[i + 1].start
    decreases |text| - start
  {
    WindowsUnfold(text, chunkSize, overlap, start);
    WindowEndFacts(text, chunkSize, overlap, start);
    var next: nat := WindowEnd(text, chunkSize, start) - overlap;
    if i == 0 {
      WindowBounds(text, chunkSize, overlap, next, 0);
    } else {
      WindowsChain(text, chunkSize, overlap, next, i - 1);
    }
  }

  /** The last window reaches the end of the text. */
  lemma {:induction false} WindowsReachEnd(text: string, chunkSize: nat, overlap: nat, start: nat)
    requires ValidChunking(chunkSize, overlap) && start < |text|
    ensures var ws := Windows(text, chunkSize, overlap, start);
      |ws| > 0 && ws[|ws| - 1].end - overlap >= |text|
    decreases |text| - start
  {
    WindowsUnfold(text, chunkSize, overlap, start);
    var next: nat := WindowEnd(text, chunkSize, start) - overlap;
    if next < |text| {
      WindowsReachEnd(text, chunkSize, overlap, next);
    }
  }

  /** Some window of `ws` contains index `j`. */
  predicate Covers(ws: seq<Window>, j: nat) {
    exists i | 0 <= i < |ws| :: ws[i].start <= j < ws[i].end
  }

  /** The raw windows together cover every index of the text. */
  lemma {:induction false} WindowsCover(text: string, chunkSize: nat, overlap: nat, start: nat, j: nat)
    requires ValidChunking(chunkSize, overlap) && start <= j < |text|
    ensures Covers(Windows(text, chunkSize, overlap, start), j)
    decreases |text| - start
  {
    var w := Window(start, WindowEnd(text, chunkSize, start));
    WindowsUnfold(text, chunkSize, overlap, start);
    var next: nat := w.end - overlap;
    var rest := Windows(text, chunkSize, overlap, next);
    var ws := [w] + rest;
    if j < w.end {
      assert ws[0].start <= j < ws[0].end;
    } else {
      WindowsCover(text, chunkSize, overlap, next, j);
      var i :| 0 <= i < |rest| && rest[i].start <= j < rest[i].end;
      assert ws[i + 1] == rest[i];
    }
  }

  /** A window cut short of `chunk_size` ends on a '.' that lies beyond 70
      percent of the window. */
  lemma {:induction false} WindowsSnap(text: string, chunkSize: nat, overlap: nat, start: nat, i: nat)
    requires ValidChunking(chunkSize, overlap) && i < |Windows(text, chunkSize, overlap, start)|
    ensures var w := Windows(text, chunkSize, overlap, start)[i];
      w.end < w.start + chunkSize ==> 0 < w.end <= |text| && text[w.end - 1] == '.' && 10 * (w.end - 1 - w.start) > 7 * chunkSize
    decreases |text| - start
  {
    WindowsUnfold(text, chunkSize, overlap, start);
    WindowEndFacts(text, chunkSize, overlap, start);
    var next: nat := WindowEnd(text, chunkSize, start) - overlap;
    if i > 0 {
      WindowsSnap(text, chunkSize, overlap, next, i - 1);
    }
  }

  lemma {:induction false} RawChunkAt(text: string, ws: seq<Window>, i: nat)
    requires i < |ws|
    ensures RawChunks(text, ws)[i] == WindowChunk(text, ws[i])
  {
    if i < |ws| - 1 {
      var front := ws[..|ws| - 1];
      RawChunkAt(text, front, i);
      assert front[i] == ws[i];
    }
  }

  /** A stripped window is no longer than the window. */
  lemma {:induction false} WindowChunkLength(text: string, w: Window)
    requires w.start <= w.end
    ensures |WindowChunk(text, w)| <= w.end - w.start
  {
  }

  /** Every chunk `chunk_text` returns is longer than 50 characters and at
      most `chunk_size` long. */
  lemma {:induction false} ChunkLengths(text: string, chunkSize: nat, overlap: nat)
    requires ValidChunking(chunkSize, overlap)
    ensures forall c | c in Chunks(text, chunkSize, overlap) :: MinChunkLength < |c| <= chunkSize
  {
    var ws := Windows(text, chunkSize, overlap, 0);
    var raw := RawChunks(text, ws);
    LongChunksKeep(raw);
    forall c | c in Chunks(text, chunkSize, overlap)
      ensures MinChunkLength < |c| <= chunkSize
    {
      var k :| 0 <= k < |LongChunks(raw)| && LongChunks(raw)[k] == c;
      var i :| 0 <= i < |raw| && raw[i] == c;
      RawChunkAt(text, ws, i);
      WindowBounds(text, chunkSize, overlap, 0, i);
      WindowChunkLength(text, ws[i]);
    }
  }

  // ---------------------------------------------------------------------
  // The index
  // ---------------------------------------------------------------------

  type Vector = seq<real>

  datatype Metadata = Metadata(filingType: string, date: string, chunkIndex: nat)

  /** A stored chunk: id, document, embedding and metadata. */
  datatype Entry = Entry(id: string, document: string, embedding: Vector, metadata: Metadata)

  /** One ranked neighbour of a query. */
  datatype Neighbour = Neighbour(entry: Entry, distance: real)

  /** A query result: the text, metadata and distance of one chunk. */
  datatype Hit = Hit(text: string, metadata: Metadata, distance: real)

  datatype InsightsResult =
    | InsightsOk(ticker: string, insights: seq<(string, string)>, totalChunksIndexed: nat)
    | InsightsFailed(error: string)

  /** The five questions of the insight step, in asking order. */
  const Topics: seq<(string, string)> := [
    ("risk_factors", "major risk factors business risks challenges threats"),
    ("revenue_growth", "revenue growth sales performance financial results"),
    ("guidance", "forward guidance outlook future expectations forecast"),
    ("competition", "competition competitive landscape market position"),
    ("innovation", "new products innovation research development pipeline")]

  function CollectionName(ticker: string): string {
    "sec_" + Lower(ticker)
  }

  /** `f"{type}_{date}_{i}"`. */
  function ChunkId(f: Filing, i: nat): string {
    f.filingType + "_" + f.date + "_" + NatToString(i)
  }

  function FilingChunks(f: Filing): seq<string> {
    Chunks(f.text, ChunkSize, ChunkOverlap)
  }

  /** The documents of the nested loop, filing by filing. */
  function Documents(filings: seq<Filing>): seq<string> {
    FlatMap(filings, FilingChunks)
  }

  function FilingIds(f: Filing): (r: seq<string>)
    ensures |r| == |FilingChunks(f)|
  {
    seq(|FilingChunks(f)|, i requires 0 <= i < |FilingChunks(f)| => ChunkId(f, i))
  }

  function FilingMetadata(f: Filing): (r: seq<Metadata>)
    ensures |r| == |FilingChunks(f)|
  {
    seq(|FilingChunks(f)|, i requires 0 <= i < |FilingChunks(f)| => Metadata(f.filingType, f.date, i))
  }

  /** The ids, parallel to `Documents`. */
  function Ids(filings: seq<Filing>): (r: seq<string>)
    ensures |r| == |Documents(filings)|
  {
    FlatMapLength(filings, FilingIds, FilingChunks);
    FlatMap(filings, FilingIds)
  }

  /** The metadata, parallel to `Documents`. */
  function Metadatas(filings: seq<Filing>): (r: seq<Metadata>)
    ensures |r| == |Documents(filings)|
  {
    FlatMapLength(filings, FilingMetadata, FilingChunks);
    FlatMap(filings, FilingMetadata)
  }

  /** One vector per text, in order. */
  function Encode(embed: string -> Vector, texts: seq<string>): (r: seq<Vector>)
    ensures |r| == |texts|
    ensures forall i | 0 <= i < |texts| :: r[i] == embed(texts[i])
  {
    seq(|texts|, i requires 0 <= i < |texts| => embed(texts[i]))
  }

  /** The parallel lists zipped into entries. */
  function Zip(docs: seq<string>, vectors: seq<Vector>, ids: seq<string>, metas: seq<Metadata>): (r: seq<Entry>)
    requires |vectors| == |docs| && |ids| == |docs| && |metas| == |docs|
    ensures |r| == |docs|
    ensures forall j | 0 <= j < |docs| :: r[j] == Entry(ids[j], docs[j], vectors[j], metas[j])
  {
    seq(|docs|, j requires 0 <= j < |docs| => Entry(ids[j], docs[j], vectors[j], metas[j]))
  }

  /** The collection a rebuild stores for these filings. */
  function IndexEntries(filings: seq<Filing>, embed: string -> Vector): seq<Entry> {
    var docs := Documents(filings);
    Zip(docs, Encode(embed, docs), Ids(filings), Metadatas(filings))
  }

  /** The collections after rebuilding `ticker`'s collection. */
  function Rebuilt(collections: map<string, seq<Entry>>, ticker: string, filings: seq<Filing>,
                   embed: string -> Vector): map<string, seq<Entry>>
  {
    collections[CollectionName(ticker) := IndexEntries(filings, embed)]
  }

  /** What `query_vector_store` returns for `ticker`'s collection. */
  function QueryResult(collections: map<string, seq<Entry>>, ticker: string, query: string, topK: nat,
                       rank: (seq<Entry>, string) -> Outcome<seq<Neighbour>>): seq<Hit>
  {
    var name := CollectionName(ticker);
    if name !in collections then []
    else
      var entries := collections[name];
      match rank(entries, query)
      case Raised(_) => []
      case Returned(ns) =>
        var top := Take(ns, Min(topK, |entries|));
        seq(|top|, i requires 0 <= i < |top| => Hit(top[i].entry.document, top[i].entry.metadata, top[i].distance))
  }

  /** The text kept for one topic: its first three hits joined by spaces and
      cut at 1000 characters. */
  function TopicContext(hits: seq<Hit>): string {
    var top := Take(hits, ChunksPerTopic);
    Take(Join(" ", seq(|top|, i requires 0 <= i < |top| => top[i].text)), MaxTopicLength)
  }

  /** The insights for the first topics, in asking order; a topic whose query
      returned nothing is left out. */
  function Insights(collections: map<string, seq<Entry>>, ticker: string, topics: seq<(string, string)>,
                    rank: (seq<Entry>, string) -> Outcome<seq<Neighbour>>): seq<(string, string)>
  {
    if |topics| == 0 then []
    else
      var front := Insights(collections, ticker, topics[..|topics| - 1], rank);
      var (topic, query) := topics[|topics| - 1];
      var hits := QueryResult(collections, ticker, query, TopK, rank);
      if |hits| > 0 then front + [(topic, TopicContext(hits))] else front
  }

  /** The parallel lists grow by one filing's block. */
  lemma {:induction false} IndexStep(filings: seq<Filing>, k: nat)
    requires k < |filings|
    ensures Documents(filings[..k + 1]) == Documents(filings[..k]) + FilingChunks(filings[k])
    ensures Ids(filings[..k + 1]) == Ids(filings[..k]) + FilingIds(filings[k])
    ensures Metadatas(filings[..k + 1]) == Metadatas(filings[..k]) + FilingMetadata(filings[k])
  {
    FlatMapStep(filings, FilingChunks, k);
    FlatMapStep(filings, FilingIds, k);
    FlatMapStep(filings, FilingMetadata, k);
  }

  /** The filing loop of `build_vector_store`: the three parallel lists. */
  method CollectChunks(filings: seq<Filing>) returns (docs: seq<string>, ids: seq<string>, metas: seq<Metadata>)
    ensures docs == Documents(filings) && ids == Ids(filings) && metas == Metadatas(filings)
  {
    docs, ids, metas := [], [], [];
    for k := 0 to |filings|
      invariant docs == Documents(filings[..k])
      invariant ids == Ids(filings[..k])
      invariant metas == Metadatas(filings[..k])
    {
      var f := filings[k];
      var chunks := ChunkText(f.text, ChunkSize, ChunkOverlap);
      docs, ids, metas := CollectFilingChunks(f, chunks, docs, ids, metas);
      IndexStep(filings, k);
    }
    TakeAll(filings);
  }

  /** The inner loop of `build_vector_store`: one filing's chunks, ids and
      metadata appended to the parallel lists. */
  method CollectFilingChunks(f: Filing, chunks: seq<string>, docs: seq<string>, ids: seq<string>, metas: seq<Metadata>)
    returns (docs': seq<string>, ids': seq<string>, metas': seq<Metadata>)
    requires chunks == FilingChunks(f)
    ensures docs' == docs + chunks
    ensures ids' == ids + FilingIds(f)
    ensures metas' == metas + FilingMetadata(f)
  {
    docs', ids', metas' := docs, ids, metas;
    for i := 0 to |chunks|
      invariant docs' == docs + chunks[..i]
      invariant ids' == ids + FilingIds(f)[..i]
      invariant metas' == metas + FilingMetadata(f)[..i]
    {
      TakeStep(chunks, i);
      AppendAssoc(docs, chunks[..i], [chunks[i]]);
      docs' := docs' + [chunks[i]];
      TakeStep(FilingIds(f), i);
      AppendAssoc(ids, FilingIds(f)[..i], [ChunkId(f, i)]);
      ids' := ids' + [ChunkId(f, i)];
      TakeStep(FilingMetadata(f), i);
      AppendAssoc(metas, FilingMetadata(f)[..i], [Metadata(f.filingType, f.date, i)]);
      metas' := metas' + [Metadata(f.filingType, f.date, i)];
    }
    TakeAll(chunks);
    TakeAll(FilingIds(f));
    TakeAll(FilingMetadata(f));
  }

  lemma {:induction false} InsightsStep(collections: map<string, seq<Entry>>, ticker: string, topics: seq<(string, string)>, t: nat,
                     rank: (seq<Entry>, string) -> Outcome<seq<Neighbour>>)
    requires t < |topics|
    ensures var hits := QueryResult(collections, ticker, topics[t].1, TopK, rank);
      Insights(collections, ticker, topics[..t + 1], rank)
        == Insights(collections, ticker, topics[..t], rank) + (if |hits| > 0 then [(topics[t].0, TopicContext(hits))] else [])
  {
    assert topics[..t + 1][..t] == topics[..t];
  }

  /** The persistent store: collection name to entries. */
  class Store {
    var collections: map<string, seq<Entry>>

    constructor (initial: map<string, seq<Entry>>)
      ensures collections == initial
    {
      collections := initial;
    }

    /** `build_vector_store`: drop and recreate the ticker's collection, fill
        the three parallel lists filing by filing, embed in batches, store. */
    method BuildVectorStore(ticker: string, filings: seq<Filing>, embed: string -> Vector) returns (count: nat)
      modifies this
      ensures collections == Rebuilt(old(collections), ticker, filings, embed)
      ensures count == |IndexEntries(filings, embed)|
    {
      var name := CollectionName(ticker);
      ghost var before := collections;
      collections := collections - {name};
      collections := collections[name := []];
      var docs, ids, metas := CollectChunks(filings);
      var embeddings := EmbedInBatches(docs, embed);
      var entries := Zip(docs, embeddings, ids, metas);
      MapReplace(before, name, [], entries);
      collections := collections[name := entries];
      count := |docs|;
    }

    /** `query_vector_store`: the first `min(top_k, count)` neighbours of the
        ticker's collection; [] when there is no such collection or the
        ranking raised. */
    method QueryVectorStore(ticker: string, query: string, topK: nat,
                            rank: (seq<Entry>, string) -> Outcome<seq<Neighbour>>) returns (hits: seq<Hit>)
      ensures hits == QueryResult(collections, ticker, query, topK, rank)
    {
      var name := CollectionName(ticker);
      if name !in collections {
        return [];
      }
      var entries := collections[name];
      var ranked := rank(entries, query);
      if ranked.Raised? {
        return [];
      }
      var top := Take(ranked.value, Min(topK, |entries|));
      hits := [];
      for i := 0 to |top|
        invariant |hits| == i
        invariant forall j | 0 <= j < i :: hits[j] == Hit(top[j].entry.document, top[j].entry.metadata, top[j].distance)
      {
        hits := hits + [Hit(top[i].entry.document, top[i].entry.metadata, top[i].distance)];
      }
    }

    /** `get_sec_insights`: failed without filings; otherwise rebuild the
        index, ask the five questions and keep the non-empty answers. */
    method GetSecInsights(ticker: string, data: FilingsData, embed: string -> Vector,
                          rank: (seq<Entry>, string) -> Outcome<seq<Neighbour>>) returns (r: InsightsResult)
      modifies this
      ensures data.FilingsFailed? ==> r == InsightsFailed("No filing data available") && collections == old(collections)
      ensures data.FilingsOk? ==>
        && collections == Rebuilt(old(collections), ticker, data.filings, embed)
        && r == InsightsOk(ticker, Insights(collections, ticker, Topics, rank), |IndexEntries(data.filings, embed)|)
    {
      if data.FilingsFailed? {
        return InsightsFailed("No filing data available");
      }
      var count := BuildVectorStore(ticker, data.filings, embed);
      var insights := AskTopics(ticker, Topics, rank);
      r := InsightsOk(ticker, insights, count);
    }

    /** The topic loop of `get_sec_insights`: one query per topic, keeping
        the first three hits' text when there are any. */
    method AskTopics(ticker: string, topics: seq<(string, string)>,
                     rank: (seq<Entry>, string) -> Outcome<seq<Neighbour>>) returns (insights: seq<(string, string)>)
      ensures insights == Insights(collections, ticker, topics, rank)
    {
      insights := [];
      for t := 0 to |topics|
        invariant insights == Insights(collections, ticker, topics[..t], rank)
      {
        var (topic, query) := topics[t];
        var hits := QueryVectorStore(ticker, query, TopK, rank);
        InsightsStep(collections, ticker, topics, t, rank);
        if |hits| > 0 {
          insights := insights + [(topic, TopicContext(hits))];
        }
      }
      TakeAll(topics);
    }
  }

  /** The batched embedding loop: slices of 32, each encoded and appended. */
  method EmbedInBatches(docs: seq<string>, embed: string -> Vector) returns (vectors: seq<Vector>)
    ensures vectors == Encode(embed, docs)
  {
    vectors := [];
    var i := 0;
    while i < |docs|
      invariant 0 <= i
      invariant vectors == Encode(embed, docs[..Min(i, |docs|)])
      decreases |docs| - i
    {
      var batch := Slice(docs, i, i + BatchSize);
      assert batch == docs[i..Min(i + BatchSize, |docs|)];
      assert docs[..Min(i + BatchSize, |docs|)] == docs[..i] + batch;
      vectors := vectors + Encode(embed, batch);
      i := i + BatchSize;
    }
    assert docs[..Min(i, |docs|)] == docs;
  }

  // ---------------------------------------------------------------------
  // Index properties
  // ---------------------------------------------------------------------

  /** Collection names differ exactly when the lower-cased tickers differ, so
      a rebuild leaves every other ticker's collection as it was. */
  lemma {:induction false} RebuildLeavesOthers(collections: map<string, seq<Entry>>, ticker: string, other: string,
                            filings: seq<Filing>, embed: string -> Vector)
    requires Lower(other) != Lower(ticker) && CollectionName(other) in collections
    ensures CollectionName(other) in Rebuilt(collections, ticker, filings, embed)
    ensures Rebuilt(collections, ticker, filings, embed)[CollectionName(other)] == collections[CollectionName(other)]
  {
    assert CollectionName(other)[4..] == Lower(other);
    assert CollectionName(ticker)[4..] == Lower(ticker);
  }

  /** The rebuilt collection holds exactly the current filings' chunks: for
      filing k, the i-th chunk of its text is stored at offset i of its
      block, with id `type_date_i`, chunk index i and the chunk's vector. */
  lemma {:induction false} IndexLayout(filings: seq<Filing>, embed: string -> Vector, k: nat, i: nat)
    requires k < |filings| && i < |FilingChunks(filings[k])|
    ensures var e := IndexEntries(filings, embed);
      var p := |Documents(filings[..k])| + i;
      && p < |e|
      && e[p] == Entry(ChunkId(filings[k], i), FilingChunks(filings[k])[i], embed(FilingChunks(filings[k])[i]),
                       Metadata(filings[k].filingType, filings[k].date, i))
  {
    var docs := Documents(filings);
    var p := |Documents(filings[..k])| + i;
    DocumentAt(filings, k, i);
    IdAt(filings, k, i);
    MetadataAt(filings, k, i);
    assert Encode(embed, docs)[p] == embed(docs[p]);
  }

  lemma {:induction false} DocumentAt(filings: seq<Filing>, k: nat, i: nat)
    requires k < |filings| && i < |FilingChunks(filings[k])|
    ensures |Documents(filings[..k])| + i < |Documents(filings)|
    ensures Documents(filings)[|Documents(filings[..k])| + i] == FilingChunks(filings[k])[i]
  {
    var before := FlatMap(filings[..k], FilingChunks);
    var block := FilingChunks(filings[k]);
    FlatMapAt(filings, FilingChunks, k, i);
    assert FlatMap(filings, FilingChunks)[|before| + i] == block[i];
  }

  lemma {:induction false} IdAt(filings: seq<Filing>, k: nat, i: nat)
    requires k < |filings| && i < |FilingChunks(filings[k])|
    ensures var p := |Documents(filings[..k])| + i;
      p < |Ids(filings)| && Ids(filings)[p] == ChunkId(filings[k], i)
  {
    var f := filings[k];
    assert |Ids(filings[..k])| == |Documents(filings[..k])|;
    FlatMapAt(filings, FilingIds, k, i);
    assert FilingIds(f)[i] == ChunkId(f, i);
  }

  lemma {:induction false} MetadataAt(filings: seq<Filing>, k: nat, i: nat)
    requires k < |filings| && i < |FilingChunks(filings[k])|
    ensures var p := |Documents(filings[..k])| + i;
      p < |Metadatas(filings)| && Metadatas(filings)[p] == Metadata(filings[k].filingType, filings[k].date, i)
  {
    var f := filings[k];
    assert |Metadatas(filings[..k])| == |Documents(filings[..k])|;
    FlatMapAt(filings, FilingMetadata, k, i);
    assert FilingMetadata(f)[i] == Metadata(f.filingType, f.date, i);
  }

  /** A query returns at most `min(top_k, count)` hits, and nothing when the
      collection is missing or the ranking raised. */
  lemma {:induction false} QueryBounded(collections: map<string, seq<Entry>>, ticker: string, query: string, topK: nat,
                     rank: (seq<Entry>, string) -> Outcome<seq<Neighbour>>)
    ensures var hits := QueryResult(collections, ticker, query, topK, rank);
      && (CollectionName(ticker) !in collections ==> hits == [])
      && (CollectionName(ticker) in collections ==>
            && |hits| <= Min(topK, |collections[CollectionName(ticker)]|)
            && (rank(collections[CollectionName(ticker)], query).Raised? ==> hits == []))
  {
  }

  /** Every insight answers one of the topics whose query returned hits,
      and its text is at most 1000 characters. */
  lemma {:induction false} InsightsSound(collections: map<string, seq<Entry>>, ticker: string, topics: seq<(string, string)>,
                                         rank: (seq<Entry>, string) -> Outcome<seq<Neighbour>>, j: nat)
    requires j < |Insights(collections, ticker, topics, rank)|
    ensures var e := Insights(collections, ticker, topics, rank)[j];
      && |e.1| <= MaxTopicLength
      && exists t | 0 <= t < |topics| :: topics[t].0 == e.0 && |QueryResult(collections, ticker, topics[t].1, TopK, rank)| > 0
  {
    var n := |topics|;
    var front := topics[..n - 1];
    var fins := Insights(collections, ticker, front, rank);
    var ins := Insights(collections, ticker, topics, rank);
    var hits := QueryResult(collections, ticker, topics[n - 1].1, TopK, rank);
    assert ins == fins + (if |hits| > 0 then [(topics[n - 1].0, TopicContext(hits))] else []);
    if j < |fins| {
      InsightsSound(collections, ticker, front, rank, j);
      assert ins[j] == fins[j];
      var t :| 0 <= t < |front| && front[t].0 == fins[j].0
             && |QueryResult(collections, ticker, front[t].1, TopK, rank)| > 0;
      assert topics[t] == front[t];
    } else {
      assert ins[j] == (topics[n - 1].0, TopicContext(hits));
    }
  }

  /** Every topic whose query returned hits has its insight, the first three
      hits' text cut at 1000 characters. */
  lemma {:induction false} InsightsComplete(collections: map<string, seq<Entry>>, ticker: string, topics: seq<(string, string)>,
                                            rank: (seq<Entry>, string) -> Outcome<seq<Neighbour>>, t: nat)
    requires t < |topics| && |QueryResult(collections, ticker, topics[t].1, TopK, rank)| > 0
    ensures var hits := QueryResult(collections, ticker, topics[t].1, TopK, rank);
      exists j | 0 <= j < |Insights(collections, ticker, topics, rank)| ::
        Insights(collections, ticker, topics, rank)[j] == (topics[t].0, TopicContext(hits))
  {
    var n := |topics|;
    var front := topics[..n - 1];
    var fins := Insights(collections, ticker, front, rank);
    var ins := Insights(collections, ticker, topics, rank);
    var last := QueryResult(collections, ticker, topics[n - 1].1, TopK, rank);
    assert ins == fins + (if |last| > 0 then [(topics[n - 1].0, TopicContext(last))] else []);
    if t == n - 1 {
      assert ins[|fins|] == (topics[t].0, TopicContext(last));
    } else {
      assert front[t] == topics[t];
      InsightsComplete(collections, ticker, front, rank, t);
      var j :| 0 <= j < |fins| && fins[j] == (front[t].0, TopicContext(QueryResult(collections, ticker, front[t].1, TopK, rank)));
      assert ins[j] == fins[j];
    }
  }

  /** There are at most as many insights as topics. */
  lemma {:induction false} InsightsCount(collections: map<string, seq<Entry>>, ticker: string, topics: seq<(string, string)>,
                                         rank: (seq<Entry>, string) -> Outcome<seq<Neighbour>>)
    ensures |Insights(collections, ticker, topics, rank)| <= |topics|
  {
    if |topics| > 0 {
      InsightsCount(collections, ticker, topics[..|topics| - 1], rank);
    }
  }
}
