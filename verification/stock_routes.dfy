/**
 * The request handling of backend/src/routes/stocks.ts that is more than
 * plumbing: validation of the batch and search requests, the partition of
 * batch results into quotes and errors, and the market overview filter.
 *
 * The quote service is the `GetQuote` of the stock service model, fed per
 * symbol from a `QuoteSource`: the cached quote, the decoded quote response
 * (a symbol without one is a failed request) and whether the cache write
 * throws.
 */
module StockRoutes {
  import opened Wrappers
  import opened Text
  import opened StockService
  import Domain

  const MaxBatchSymbols: nat := 50

  /**
   * The checks on the `symbols` field of a batch request: `None` stands for a
   * value that is not an array.
   */
  function ValidateBatch(symbols: Option<seq<string>>): (r: Result<seq<string>, string>)
    ensures r.Success? <==> symbols.Some? && 1 <= |symbols.value| <= MaxBatchSymbols
    ensures r.Success? ==> r.value == symbols.value
    ensures symbols.None? || (symbols.Some? && symbols.value == []) ==> r == Failure("Symbols array is required")
    ensures symbols.Some? && |symbols.value| > MaxBatchSymbols ==> r == Failure("Maximum 50 symbols allowed per request")
  {
    if symbols.None? || |symbols.value| == 0 then Failure("Symbols array is required")
    else if |symbols.value| > 50 then Failure("Maximum 50 symbols allowed per request")
    else Success(symbols.value)
  }

  /** One entry of the batch: a quote, or the symbol as sent with the error message. */
  datatype BatchResult = Quoted(quote: StockQuote) | ErrorRecord(symbol: string, error: string)

  /** What the quote service sees per symbol: cached quotes, provider responses, and the symbols whose cache write throws. */
  datatype QuoteSource = QuoteSource(cached: map<string, StockQuote>, responses: map<string, QuoteData>, writeFails: set<string>)

  function Lookup<V>(m: map<string, V>, key: string): (r: Option<V>)
    ensures key in m <==> r.Some?
    ensures key in m ==> r.value == m[key]
  {
    if key in m then Some(m[key]) else None
  }

  /** `stockService.getQuote(symbol)` against the source. */
  function QuoteFor(symbol: string, src: QuoteSource, now: Domain.Millis): Result<StockQuote, string> {
    GetQuote(symbol, Lookup(src.cached, symbol), Lookup(src.responses, symbol), now, symbol !in src.writeFails)
  }

  /** `getQuote(...).catch(error => ({ symbol, error: error.message }))` for the symbol `name`. */
  function Settle(name: string, q: Result<StockQuote, string>): (r: BatchResult)
    ensures q.Success? <==> r.Quoted?
    ensures q.Success? ==> r.quote == q.value
    ensures q.Failure? ==> r == ErrorRecord(name, q.error)
  {
    match q
    case Success(quote) => Quoted(quote)
    case Failure(e) => ErrorRecord(name, e)
  }

  /** The quote for one requested symbol, looked up upper-cased; an error keeps the symbol as sent. */
  function FetchOne(symbol: string, src: QuoteSource, now: Domain.Millis): (r: BatchResult)
    ensures r.Quoted? ==> r.quote.symbol == Upper(symbol) || Upper(symbol) in src.cached
    ensures r.ErrorRecord? ==> r.symbol == symbol && r.error == QuoteError(Upper(symbol))
    ensures Upper(symbol) !in src.cached ==>
      (r.Quoted? <==> Upper(symbol) in src.responses && Upper(symbol) !in src.writeFails
                      && src.responses[Upper(symbol)].c.Some? && src.responses[Upper(symbol)].c.value != 0.0)
    ensures Upper(symbol) in src.cached ==> r == Quoted(src.cached[Upper(symbol)])
  {
    Settle(symbol, QuoteFor(Upper(symbol), src, now))
  }

  /** The quotes among the results, in order. */
  function QuotesOf(results: seq<BatchResult>): (r: seq<StockQuote>)
    ensures |r| <= |results|
    ensures forall q :: q in r ==> Quoted(q) in results
  {
    if results == [] then []
    else
      var rest := QuotesOf(results[..|results| - 1]);
      var last := results[|results| - 1];
      if last.Quoted? then rest + [last.quote] else rest
  }

  /** The error records among the results, in order. */
  function ErrorsOf(results: seq<BatchResult>): (r: seq<BatchResult>)
    ensures |r| <= |results|
    ensures forall e :: e in r ==> e in results && e.ErrorRecord?
  {
    if results == [] then []
    else
      var rest := ErrorsOf(results[..|results| - 1]);
      var last := results[|results| - 1];
      if last.ErrorRecord? then rest + [last] else rest
  }

  /** Every result lands in exactly one of the two lists. */
  lemma {:induction false} PartitionCovers(results: seq<BatchResult>)
    ensures |QuotesOf(results)| + |ErrorsOf(results)| == |results|
  {
    if results != [] {
      PartitionCovers(results[..|results| - 1]);
    }
  }

  /** Filtering one more result appends its quote exactly when it is quoted. */
  lemma QuotesOfSnoc(s: seq<BatchResult>, w: BatchResult)
    ensures QuotesOf(s + [w]) == QuotesOf(s) + (if w.Quoted? then [w.quote] else [])
  {
    var t := s + [w];
    assert t[..|t| - 1] == s;
  }

  /** Splitting is done piece by piece, so both lists keep the relative order of the results. */
  lemma {:induction false} QuotesOfAppend(a: seq<BatchResult>, b: seq<BatchResult>)
    ensures QuotesOf(a + b) == QuotesOf(a) + QuotesOf(b)
    decreases |b|
  {
    if b == [] {
      assert a + b == a;
    } else {
      var b', w := b[..|b| - 1], b[|b| - 1];
      assert b == b' + [w];
      assert a + b == (a + b') + [w];
      QuotesOfAppend(a, b');
      QuotesOfSnoc(a + b', w);
      QuotesOfSnoc(b', w);
    }
  }

  /** Filtering one more result appends it exactly when it is an error. */
  lemma ErrorsOfSnoc(s: seq<BatchResult>, w: BatchResult)
    ensures ErrorsOf(s + [w]) == ErrorsOf(s) + (if w.ErrorRecord? then [w] else [])
  {
    var t := s + [w];
    assert t[..|t| - 1] == s;
  }

  lemma {:induction false} ErrorsOfAppend(a: seq<BatchResult>, b: seq<BatchResult>)
    ensures ErrorsOf(a + b) == ErrorsOf(a) + ErrorsOf(b)
    decreases |b|
  {
    if b == [] {
      assert a + b == a;
    } else {
      var b', w := b[..|b| - 1], b[|b| - 1];
      assert b == b' + [w];
      assert a + b == (a + b') + [w];
      ErrorsOfAppend(a, b');
      ErrorsOfSnoc(a + b', w);
      ErrorsOfSnoc(b', w);
    }
  }

  /** The loop that separates the batch results. */
  method Partition(results: seq<BatchResult>) returns (quotes: seq<StockQuote>, errors: seq<BatchResult>)
    ensures quotes == QuotesOf(results) && errors == ErrorsOf(results)
    ensures |quotes| + |errors| == |results|
  {
    quotes, errors := [], [];
    for i := 0 to |results|
      invariant quotes == QuotesOf(results[..i]) && errors == ErrorsOf(results[..i])
    {
      assert results[..i + 1][..i] == results[..i];
      if results[i].ErrorRecord? {
        errors := errors + [results[i]];
      } else {
        quotes := quotes + [results[i].quote];
      }
    }
    assert results[..|results|] == results;
    PartitionCovers(results);
  }

  /** The body of a successful batch response; `errors` is left out when there are none. */
  datatype BatchResponse = BatchResponse(quotes: seq<StockQuote>, errors: Option<seq<BatchResult>>)

  /** POST `/quotes`. */
  method BatchQuotes(symbols: Option<seq<string>>, src: QuoteSource, now: Domain.Millis)
    returns (r: Result<BatchResponse, string>)
    ensures r.Failure? <==> ValidateBatch(symbols).Failure?
    ensures r.Failure? ==> r.error == ValidateBatch(symbols).error
    ensures r.Success? ==>
      var results := seq(|symbols.value|, i requires 0 <= i < |symbols.value| => FetchOne(symbols.value[i], src, now));
      r.value.quotes == QuotesOf(results) &&
      (r.value.errors.None? <==> ErrorsOf(results) == []) &&
      (r.value.errors.Some? ==> r.value.errors.value == ErrorsOf(results)) &&
      |r.value.quotes| + |ErrorsOf(results)| == |symbols.value|
  {
    var valid := ValidateBatch(symbols);
    if valid.Failure? {
      return Failure(valid.error);
    }
    var requested := valid.value;
    var results := seq(|requested|, i requires 0 <= i < |requested| => FetchOne(requested[i], src, now));
    var quotes, errors := Partition(results);
    r := Success(BatchResponse(quotes, if |errors| > 0 then Some(errors) else None));
  }

  /** A batch whose every symbol has a valid response has no `errors` field. */
  lemma {:induction false} AllQuotedNoErrors(results: seq<BatchResult>)
    requires forall i :: 0 <= i < |results| ==> results[i].Quoted?
    ensures ErrorsOf(results) == [] && |QuotesOf(results)| == |results|
  {
    if results != [] {
      AllQuotedNoErrors(results[..|results| - 1]);
    }
  }

  /** A symbol with neither a cached quote nor a response shows up among the errors under the name it was sent with. */
  lemma FailedSymbolReported(symbol: string, src: QuoteSource, now: Domain.Millis)
    requires Upper(symbol) !in src.cached && Upper(symbol) !in src.responses
    ensures ErrorsOf([FetchOne(symbol, src, now)]) == [ErrorRecord(symbol, QuoteError(Upper(symbol)))]
  {
    assert [FetchOne(symbol, src, now)][..0] == [];
  }

  /** A quote is kept exactly when its result is a quote. */
  lemma {:induction false} QuotesOfMembership(results: seq<BatchResult>, q: StockQuote)
    ensures q in QuotesOf(results) <==> Quoted(q) in results
  {
    if results != [] {
      var init, last := results[..|results| - 1], results[|results| - 1];
      assert results == init + [last];
      QuotesOfMembership(init, q);
    }
  }

  // Market overview

  const OverviewIndices: seq<string> := ["^GSPC", "^DJI", "^IXIC", "^RUT"]

  datatype Overview = Overview(indices: seq<StockQuote>, recentNews: seq<NewsItem>)

  /** The settled quote of each index, in index order; an error keeps the index symbol. */
  function IndexResults(src: QuoteSource, now: Domain.Millis): (r: seq<BatchResult>)
    ensures |r| == |OverviewIndices|
    ensures forall i :: 0 <= i < |OverviewIndices| ==> r[i] == Settle(OverviewIndices[i], QuoteFor(OverviewIndices[i], src, now))
  {
    seq(|OverviewIndices|, i requires 0 <= i < |OverviewIndices| =>
      Settle(OverviewIndices[i], QuoteFor(OverviewIndices[i], src, now)))
  }

  /**
   * GET `/market/overview`: the index quotes that did not fail, in index
   * order, and `news.slice(0, 5)`.
   */
  function MarketOverview(src: QuoteSource, news: seq<NewsItem>, now: Domain.Millis): (r: Overview)
    ensures r.indices == QuotesOf(IndexResults(src, now))
    ensures r.recentNews == news[..if |news| < 5 then |news| else 5]
    ensures forall q :: q in r.indices <==>
      exists i :: 0 <= i < |OverviewIndices| && QuoteFor(OverviewIndices[i], src, now) == Success(q)
  {
    var results := IndexResults(src, now);
    forall q ensures q in QuotesOf(results) <==>
      exists i :: 0 <= i < |OverviewIndices| && QuoteFor(OverviewIndices[i], src, now) == Success(q)
    {
      QuotesOfMembership(results, q);
    }
    Overview(QuotesOf(results), Domain.Take(news, 5))
  }

  /** When no index quote fails, all four are shown, in index order. */
  lemma AllIndicesShown(src: QuoteSource, news: seq<NewsItem>, now: Domain.Millis)
    requires forall i :: 0 <= i < |OverviewIndices| ==> QuoteFor(OverviewIndices[i], src, now).Success?
    ensures var r := MarketOverview(src, news, now);
      |r.indices| == |OverviewIndices|
      && forall i :: 0 <= i < |OverviewIndices| ==> r.indices[i] == QuoteFor(OverviewIndices[i], src, now).value
  {
    var results := IndexResults(src, now);
    AllQuotedQuotes(results);
  }

  /** With no failed result, the quotes are the results' quotes one for one. */
  lemma {:induction false} AllQuotedQuotes(results: seq<BatchResult>)
    requires forall i :: 0 <= i < |results| ==> results[i].Quoted?
    ensures |QuotesOf(results)| == |results|
    ensures forall i :: 0 <= i < |results| ==> QuotesOf(results)[i] == results[i].quote
  {
    if results != [] {
      var init := results[..|results| - 1];
      AllQuotedQuotes(init);
      QuotesOfSnoc(init, results[|results| - 1]);
      assert results == init + [results[|results| - 1]];
    }
  }

  // Search

  /** The `q` query parameter: absent, a string, or something else (an array, an object). */
  datatype QueryValue = Absent | Text(s: string) | NotAString

  /** GET `/search`: a missing, empty or non-string query is refused. */
  function ValidateSearch(q: QueryValue): (r: Result<string, string>)
    ensures r.Success? <==> q.Text? && q.s != ""
    ensures r.Success? ==> r.value == q.s
    ensures r.Failure? ==> r.error == "Search query is required"
  {
    if q.Text? && q.s != "" then Success(q.s) else Failure("Search query is required")
  }
}
