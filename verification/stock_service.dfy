/**
 * The pure parts of backend/src/services/stockService.ts: the validity check
 * and field mapping of a quote, the candle mapping, volume tiers,
 * word-presence sentiment and ticker extraction from news text.
 *
 * Each market-data request is replaced by its decoded response body, `None`
 * when the request failed.
 */
module StockService {
  import opened Wrappers
  import opened Text
  import Domain

  // Volume tiers

  /** A volume as shown: the scaled amount (before one-decimal formatting) and its suffix. */
  datatype Volume = Volume(amount: real, suffix: string)

  /** `formatVolume`: billions, millions, thousands, or the plain number. */
  function FormatVolume(v: real): (r: Volume)
    ensures r.suffix == "B" <==> v >= 1000000000.0
    ensures r.suffix == "M" <==> 1000000.0 <= v < 1000000000.0
    ensures r.suffix == "K" <==> 1000.0 <= v < 1000000.0
    ensures r.suffix == "" <==> v < 1000.0
  {
    if v >= 1000000000.0 then Volume(v / 1000000000.0, "B")
    else if v >= 1000000.0 then Volume(v / 1000000.0, "M")
    else if v >= 1000.0 then Volume(v / 1000.0, "K")
    else Volume(v, "")
  }

  function SuffixFactor(suffix: string): real {
    if suffix == "B" then 1000000000.0
    else if suffix == "M" then 1000000.0
    else if suffix == "K" then 1000.0
    else 1.0
  }

  /**
   * The shown amount times its suffix gives the volume back, and a suffixed
   * amount is at least 1 (below 1000 except in the top tier).
   */
  lemma FormatVolumeRoundTrip(v: real)
    ensures var r := FormatVolume(v); r.amount * SuffixFactor(r.suffix) == v
    ensures var r := FormatVolume(v); r.suffix != "" ==> 1.0 <= r.amount
    ensures var r := FormatVolume(v); r.suffix == "M" || r.suffix == "K" ==> r.amount < 1000.0
  {
    var r := FormatVolume(v);
    if v >= 1000000000.0 {
      assert r.amount * 1000000000.0 == v;
    } else if v >= 1000000.0 {
      assert r.amount * 1000000.0 == v;
    } else if v >= 1000.0 {
      assert r.amount * 1000.0 == v;
    }
  }

  // Quotes

  /** The fields of the quote response the service reads; any may be missing. */
  datatype QuoteData = QuoteData(
    c: Option<real>, d: Option<real>, dp: Option<real>, h: Option<real>, l: Option<real>, o: Option<real>)

  datatype StockQuote = StockQuote(
    symbol: string,
    price: real,
    change: Option<real>,
    changePercent: Option<real>,
    volume: Volume,
    high: Option<real>,
    low: Option<real>,
    open: Option<real>,
    timestamp: Domain.Millis)

  /** `x || 0` for a number that may be missing. */
  function OrZero(x: Option<real>): (r: real)
    ensures x.Some? ==> r == x.value
    ensures x.None? ==> r == 0.0
  {
    if x.Some? then x.value else 0.0
  }

  function QuoteError(symbol: string): string {
    "Failed to fetch stock quote for " + symbol
  }

  /**
   * `getQuote`: a cached quote is returned as stored; otherwise a quote is
   * built only when the current price `c` is present and non-zero and its
   * one-minute cache write succeeds, and any failure becomes one error
   * naming the symbol. A cache read that throws counts as a miss.
   */
  function GetQuote(symbol: string, cached: Option<StockQuote>, data: Option<QuoteData>, now: Domain.Millis, writeOk: bool)
    : (r: Result<StockQuote, string>)
    ensures cached.Some? ==> r == Success(cached.value)
    ensures cached.None? ==>
      (r.Success? <==> data.Some? && data.value.c.Some? && data.value.c.value != 0.0 && writeOk)
    ensures cached.None? && r.Failure? ==> r.error == QuoteError(symbol)
    ensures cached.None? && r.Success? ==>
      r.value.symbol == symbol && r.value.price == data.value.c.value && r.value.timestamp == now &&
      r.value.change == data.value.d && r.value.changePercent == data.value.dp &&
      r.value.high == data.value.h && r.value.low == data.value.l && r.value.open == data.value.o
  {
    if cached.Some? then Success(cached.value)
    else if data.None? || data.value.c.None? || data.value.c.value == 0.0 then Failure(QuoteError(symbol))
    else
      var d := data.value;
      var quote := StockQuote(symbol, d.c.value, d.d, d.dp, FormatVolume(OrZero(d.h)), d.h, d.l, d.o, now);
      if writeOk then Success(quote) else Failure(QuoteError(symbol))
  }

  /** The `volume` of a fresh quote is the day high `h` formatted as a volume, not a traded volume. */
  lemma QuoteVolumeIsDayHigh(symbol: string, data: QuoteData, now: Domain.Millis)
    requires data.c.Some? && data.c.value != 0.0
    ensures GetQuote(symbol, None, Some(data), now, true).value.volume == FormatVolume(OrZero(data.h))
    ensures data.h.None? ==> GetQuote(symbol, None, Some(data), now, true).value.volume == Volume(0.0, "")
  {
  }

  // Candles

  /** The candle response: status and parallel arrays. */
  datatype CandleData = CandleData(s: string, t: seq<nat>, o: seq<real>, h: seq<real>, l: seq<real>, c: seq<real>, v: seq<real>)

  /** A candle; a field is missing when its array is shorter than `t`. */
  datatype Candle = Candle(timestamp: Domain.Millis, open: Option<real>, high: Option<real>, low: Option<real>, close: Option<real>, volume: Option<real>)

  /** `xs[i]`, `undefined` past the end. */
  function At(xs: seq<real>, i: nat): (r: Option<real>)
    ensures i < |xs| ==> r == Some(xs[i])
    ensures i >= |xs| ==> r.None?
  {
    if i < |xs| then Some(xs[i]) else None
  }

  /** Candle `i`: its time in milliseconds, and each field present exactly when its array reaches `i`. */
  function CandleAt(data: CandleData, i: nat): (k: Candle)
    requires i < |data.t|
    ensures k.timestamp == data.t[i] * 1000
    ensures (k.open.Some? <==> i < |data.o|) && (k.open.Some? ==> k.open.value == data.o[i])
    ensures (k.high.Some? <==> i < |data.h|) && (k.high.Some? ==> k.high.value == data.h[i])
    ensures (k.low.Some? <==> i < |data.l|) && (k.low.Some? ==> k.low.value == data.l[i])
    ensures (k.close.Some? <==> i < |data.c|) && (k.close.Some? ==> k.close.value == data.c[i])
    ensures (k.volume.Some? <==> i < |data.v|) && (k.volume.Some? ==> k.volume.value == data.v[i])
  {
    Candle(data.t[i] * 1000, At(data.o, i), At(data.h, i), At(data.l, i), At(data.c, i), At(data.v, i))
  }

  function CandleError(symbol: string): string {
    "Failed to fetch candle data for " + symbol
  }

  /**
   * `getCandleData`: cached candles are returned as stored; otherwise a
   * failed request, a status other than `ok` or a failing five-minute cache
   * write is one error, and success is one candle per timestamp. A cache read
   * that throws counts as a miss.
   */
  function GetCandleData(symbol: string, cached: Option<seq<Candle>>, data: Option<CandleData>, writeOk: bool)
    : (r: Result<seq<Candle>, string>)
    ensures cached.Some? ==> r == Success(cached.value)
    ensures cached.None? ==> (r.Success? <==> data.Some? && data.value.s == "ok" && writeOk)
    ensures cached.None? && r.Failure? ==> r.error == CandleError(symbol)
    ensures cached.None? && r.Success? ==> |r.value| == |data.value.t|
  {
    if cached.Some? then Success(cached.value)
    else if data.None? || data.value.s != "ok" || !writeOk then Failure(CandleError(symbol))
    else Success(seq(|data.value.t|, i requires 0 <= i < |data.value.t| => CandleAt(data.value, i)))
  }

  /** With arrays of equal length, candle `i` is exactly the `i`-th entry of each array, stamped in milliseconds. */
  lemma CandlesAligned(symbol: string, data: CandleData, i: nat)
    requires data.s == "ok" && i < |data.t|
    requires |data.o| == |data.h| == |data.l| == |data.c| == |data.v| == |data.t|
    ensures var k := GetCandleData(symbol, None, Some(data), true).value[i];
      k == Candle(data.t[i] * 1000, Some(data.o[i]), Some(data.h[i]), Some(data.l[i]), Some(data.c[i]), Some(data.v[i]))
  {
  }

  // Sentiment

  datatype Sentiment = Positive | Negative | Neutral

  const PositiveWords: seq<string> := ["up", "rise", "gain", "bullish", "growth", "profit", "strong"]
  const NegativeWords: seq<string> := ["down", "fall", "loss", "bearish", "decline", "weak", "drop"]

  /** The positions of the listed words that occur in `text`. */
  ghost function PresentIndices(words: seq<string>, text: string): set<int> {
    set i | 0 <= i < |words| && Contains(text, words[i])
  }

  /** One more listed word adds its position exactly when it occurs in the text. */
  lemma PresentIndicesSnoc(words: seq<string>, text: string)
    requires words != []
    ensures var n := |words| - 1;
      |PresentIndices(words, text)| == |PresentIndices(words[..n], text)| + (if Contains(text, words[n]) then 1 else 0)
  {
    var n := |words| - 1;
    var init := PresentIndices(words[..n], text);
    var last: set<int> := if Contains(text, words[n]) then {n} else {};
    assert PresentIndices(words, text) == init + last;
    assert n !in init;
  }

  /** How many of `words` occur in `text` at least once. */
  function CountPresent(words: seq<string>, text: string): (n: nat)
    ensures n == |PresentIndices(words, text)| <= |words|
  {
    if words == [] then
      assert PresentIndices(words, text) == {};
      0
    else
      var n := |words| - 1;
      PresentIndicesSnoc(words, text);
      CountPresent(words[..n], text) + (if Contains(text, words[n]) then 1 else 0)
  }

  /** `analyzeSentiment`: more distinct positive than negative words present is positive, and the reverse negative. */
  function AnalyzeSentiment(text: string): (r: Sentiment)
    ensures var lower := Lower(text);
      (r == Positive <==> CountPresent(PositiveWords, lower) > CountPresent(NegativeWords, lower)) &&
      (r == Negative <==> CountPresent(NegativeWords, lower) > CountPresent(PositiveWords, lower))
  {
    var lower := Lower(text);
    var positive := CountPresent(PositiveWords, lower);
    var negative := CountPresent(NegativeWords, lower);
    if positive > negative then Positive
    else if negative > positive then Negative
    else Neutral
  }

  /** Only which words are present matters, not how often. */
  lemma {:induction false} CountPresentByPresence(words: seq<string>, s: string, t: string)
    requires forall w :: w in words ==> (Contains(s, w) <==> Contains(t, w))
    ensures CountPresent(words, s) == CountPresent(words, t)
  {
    if words != [] {
      var n := |words| - 1;
      assert words[n] in words;
      assert forall w :: w in words[..n] ==> w in words;
      CountPresentByPresence(words[..n], s, t);
    }
  }

  /** Two texts with the same listed words present, in any case and any number of times, get the same sentiment. */
  lemma SentimentByPresence(s: string, t: string)
    requires forall w :: w in PositiveWords + NegativeWords ==> (Contains(Lower(s), w) <==> Contains(Lower(t), w))
    ensures AnalyzeSentiment(s) == AnalyzeSentiment(t)
  {
    CountPresentByPresence(PositiveWords, Lower(s), Lower(t));
    CountPresentByPresence(NegativeWords, Lower(s), Lower(t));
  }

  /** More text never removes a word already present. */
  lemma {:induction false} CountPresentAppend(words: seq<string>, s: string, t: string)
    ensures CountPresent(words, s) <= CountPresent(words, s + t)
  {
    if words != [] {
      var n := |words| - 1;
      if Contains(s, words[n]) {
        ContainsAppend(s, t, words[n]);
      }
      CountPresentAppend(words[..n], s, t);
    }
  }

  /** Upper-casing a text does not change its sentiment. */
  lemma SentimentCaseInsensitive(text: string)
    ensures AnalyzeSentiment(Upper(text)) == AnalyzeSentiment(text)
  {
    assert Lower(Upper(text)) == Lower(text);
  }

  // Ticker extraction

  /** The length of the run of word characters at the start of `s`. */
  function RunLength(s: string): (n: nat)
    ensures n <= |s|
    ensures forall i :: 0 <= i < n ==> IsWordChar(s[i])
    ensures n < |s| ==> !IsWordChar(s[n])
  {
    if s != [] && IsWordChar(s[0]) then 1 + RunLength(s[1..]) else 0
  }

  /** The maximal runs of word characters, in order: the only places `\b...\b` can match. */
  function Words(s: string): (r: seq<string>)
    ensures forall w :: w in r ==> w != [] && forall i :: 0 <= i < |w| ==> IsWordChar(w[i])
    decreases |s|
  {
    if s == [] then []
    else if !IsWordChar(s[0]) then Words(s[1..])
    else
      var n := RunLength(s);
      [s[..n]] + Words(s[n..])
  }

  /** `[A-Z]{1,5}` matching a whole word. */
  predicate IsTicker(w: string) {
    1 <= |w| <= 5 && forall i :: 0 <= i < |w| ==> IsUpperLetter(w[i])
  }

  const CommonWords: seq<string> := [
    "THE", "AND", "FOR", "ARE", "BUT", "NOT", "YOU", "ALL", "CAN", "HAD", "HER", "WAS", "ONE",
    "OUR", "OUT", "DAY", "GET", "HAS", "HIM", "HIS", "HOW", "ITS", "MAY", "NEW", "NOW", "OLD",
    "SEE", "TWO", "WAY", "WHO", "BOY", "DID", "ITS", "LET", "PUT", "SAY", "SHE", "TOO", "USE"]

  /** A word the extraction keeps: a ticker that is not a common English word. */
  predicate IsSymbol(w: string) {
    IsTicker(w) && w !in CommonWords
  }

  /** The words that are tickers and not common English words, in order, duplicates kept. */
  function Tickers(words: seq<string>): (r: seq<string>)
    ensures |r| <= |words|
    ensures forall w :: w in r ==> w in words && IsSymbol(w)
  {
    if words == [] then []
    else
      var rest := Tickers(words[..|words| - 1]);
      var w := words[|words| - 1];
      if IsSymbol(w) then rest + [w] else rest
  }

  /** `extractSymbols` */
  /** Every symbol word is kept as often as it occurs, and nothing else is kept. */
  lemma {:induction false} TickersMultiplicity(words: seq<string>)
    ensures forall w :: multiset(Tickers(words))[w] == if IsSymbol(w) then multiset(words)[w] else 0
  {
    if words != [] {
      var init, last := words[..|words| - 1], words[|words| - 1];
      assert words == init + [last];
      TickersMultiplicity(init);
      TickersSnoc(init, last);
    }
  }

  /** A word is kept exactly when it occurs and is a symbol. */
  lemma TickersKeepsSymbols(words: seq<string>)
    ensures forall w :: w in Tickers(words) <==> w in words && IsSymbol(w)
  {
    TickersMultiplicity(words);
    forall w ensures w in Tickers(words) <==> w in words && IsSymbol(w) {
      assert (w in Tickers(words)) == (multiset(Tickers(words))[w] > 0);
      assert (w in words) == (multiset(words)[w] > 0);
    }
  }

  /** `text.match(/\b[A-Z]{1,5}\b/g)` without the common words: every symbol word of the text, in order. */
  function ExtractSymbols(text: string): (r: seq<string>)
    ensures forall w :: w in r <==> w in Words(text) && IsSymbol(w)
    ensures forall w :: IsSymbol(w) ==> multiset(r)[w] == multiset(Words(text))[w]
  {
    var words := Words(text);
    TickersKeepsSymbols(words);
    TickersMultiplicity(words);
    Tickers(words)
  }

  /** One more word is kept exactly when it is a symbol. */
  lemma TickersSnoc(s: seq<string>, w: string)
    ensures Tickers(s + [w]) == Tickers(s) + (if IsSymbol(w) then [w] else [])
  {
    var t := s + [w];
    assert t[..|t| - 1] == s;
  }

  lemma {:induction false} TickersAppend(a: seq<string>, b: seq<string>)
    ensures Tickers(a + b) == Tickers(a) + Tickers(b)
    decreases |b|
  {
    if b == [] {
      assert a + b == a;
    } else {
      var b', w := b[..|b| - 1], b[|b| - 1];
      assert b == b' + [w];
      assert a + b == (a + b') + [w];
      TickersAppend(a, b');
      TickersSnoc(a + b', w);
      TickersSnoc(b', w);
    }
  }

  /** A non-word character ends the run: the run before it does not see past it. */
  lemma {:induction false} RunLengthStops(a: string, c: char, b: string)
    requires !IsWordChar(c)
    ensures RunLength(a + [c] + b) == RunLength(a)
  {
    if a != [] && IsWordChar(a[0]) {
      assert (a + [c] + b)[1..] == a[1..] + [c] + b;
      RunLengthStops(a[1..], c, b);
    }
  }

  /** Words never span a non-word character. */
  lemma {:induction false} WordsSplit(a: string, c: char, b: string)
    requires !IsWordChar(c)
    ensures Words(a + [c] + b) == Words(a) + Words(b)
    decreases |a|
  {
    var s := a + [c] + b;
    if a == [] {
      assert s[1..] == b;
    } else if !IsWordChar(a[0]) {
      assert s[1..] == a[1..] + [c] + b;
      WordsSplit(a[1..], c, b);
    } else {
      var n := RunLength(a);
      RunLengthStops(a, c, b);
      assert s[..n] == a[..n];
      assert s[n..] == a[n..] + [c] + b;
      WordsSplit(a[n..], c, b);
    }
  }

  /** Symbols of two texts joined by a space are the symbols of each, in order. */
  lemma ExtractSymbolsConcat(a: string, b: string)
    ensures ExtractSymbols(a + " " + b) == ExtractSymbols(a) + ExtractSymbols(b)
  {
    assert a + " " + b == a + [' '] + b;
    WordsSplit(a, ' ', b);
    TickersAppend(Words(a), Words(b));
  }

  // News items

  /** The fields of one raw news item the service reads. */
  datatype RawNews = RawNews(id: nat, headline: string, summary: string, url: string, source: string, datetime: nat)

  datatype NewsItem = NewsItem(
    id: string, title: string, summary: string, url: string, source: string,
    publishedAt: Domain.Millis, sentiment: Sentiment, relevanceScore: real, symbols: seq<string>)

  /** The mapping in `getMarketNews`; `draw` is the random relevance draw. */
  function ToNewsItem(raw: RawNews, draw: Domain.Unit): (r: NewsItem)
    ensures r.sentiment == AnalyzeSentiment(raw.summary)
    ensures r.symbols == ExtractSymbols(raw.summary)
    ensures 0.5 <= r.relevanceScore < 1.0
    ensures r.publishedAt == raw.datetime * 1000 && r.id == NatToString(raw.id)
  {
    NewsItem(NatToString(raw.id), raw.headline, raw.summary, raw.url, raw.source,
             raw.datetime * 1000, AnalyzeSentiment(raw.summary), draw * 0.5 + 0.5, ExtractSymbols(raw.summary))
  }
}
