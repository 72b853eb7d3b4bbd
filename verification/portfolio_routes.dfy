/**
 * The portfolio routes of backend/src/routes/portfolio.ts: live valuation
 * of holdings (falling back to cost when a quote fails), the running totals
 * of create and update, the performance summary, and the portfolio store
 * with its two read-through caches (`portfolios:<userId>`, `portfolio:<id>`).
 * A live quote is a price in the `quotes` map; a symbol missing from it is a
 * `getQuote` call that threw.
 */
module PortfolioRoutes {
  import opened Wrappers
  import opened Domain
  import AlphaScoreService

  const ListCacheTtlSeconds: nat := 300

  const ItemCacheTtlSeconds: nat := 120

  function Quote(quotes: map<string, real>, symbol: string): Option<real> {
    if symbol in quotes then Some(quotes[symbol]) else None
  }

  // ------------------------------------------------------------------
  // Valuation
  // ------------------------------------------------------------------

  /** The derived fields of a valued holding agree with its price, shares and cost. */
  predicate Consistent(h: Holding) {
    ValidHolding(h) && h.currentPrice.Some? && h.value.Some? && h.gainLoss.Some? && h.gainLossPercent.Some?
    && var cost := h.shares * h.averageCost;
    h.value.value == h.shares * h.currentPrice.value
    && h.gainLoss.value == h.value.value - cost
    && h.gainLossPercent.value == h.gainLoss.value / cost * 100.0
  }

  /** One step of the valuation loop: price from the quote, or from the average cost. */
  function ValueHolding(h: Holding, quote: Option<real>): (v: Holding)
    requires ValidHolding(h)
    ensures v.symbol == h.symbol && v.shares == h.shares && v.averageCost == h.averageCost
    ensures quote.Some? ==> v.currentPrice == quote && v.value == Some(h.shares * quote.value)
    ensures quote.None? ==> v.currentPrice == Some(h.averageCost) && v.value == Some(h.shares * h.averageCost)
  {
    match quote
    case Some(price) =>
      var marketValue := h.shares * price;
      assert marketValue == h.shares * quote.value;
      var gainLoss := marketValue - h.shares * h.averageCost;
      Holding(h.symbol, h.shares, h.averageCost, Some(price), Some(marketValue), Some(gainLoss),
              Some(gainLoss / (h.shares * h.averageCost) * 100.0))
    case None =>
      Holding(h.symbol, h.shares, h.averageCost, Some(h.averageCost), Some(h.shares * h.averageCost),
              Some(0.0), Some(0.0))
  }

  function Valued(hs: seq<Holding>, quotes: map<string, real>): (r: seq<Holding>)
    requires AllValidHoldings(hs)
    ensures |r| == |hs|
  {
    if hs == [] then []
    else
      var last := hs[|hs| - 1];
      Valued(hs[..|hs| - 1], quotes) + [ValueHolding(last, Quote(quotes, last.symbol))]
  }

  /** The last valued holding is the last holding valued; the rest are the rest valued. */
  lemma ValuedStep(hs: seq<Holding>, quotes: map<string, real>)
    requires AllValidHoldings(hs) && hs != []
    ensures var v := Valued(hs, quotes); var last := hs[|hs| - 1];
      v[..|v| - 1] == Valued(hs[..|hs| - 1], quotes)
      && v[|v| - 1] == ValueHolding(last, Quote(quotes, last.symbol))
      && v == Valued(hs[..|hs| - 1], quotes) + [ValueHolding(last, Quote(quotes, last.symbol))]
  {
    var v := Valued(hs, quotes);
    assert v[..|v| - 1] == Valued(hs[..|hs| - 1], quotes);
  }

  /** Valuing is pointwise: the i-th valued holding is the i-th holding valued. */
  lemma {:induction false} ValuedPointwise(hs: seq<Holding>, quotes: map<string, real>)
    requires AllValidHoldings(hs)
    ensures forall i :: 0 <= i < |hs| ==> Valued(hs, quotes)[i] == ValueHolding(hs[i], Quote(quotes, hs[i].symbol))
  {
    if hs != [] {
      var init := hs[..|hs| - 1];
      ValuedPointwise(init, quotes);
      assert forall i :: 0 <= i < |init| ==> Valued(hs, quotes)[i] == Valued(init, quotes)[i];
    }
  }

  /**
   * A valued holding keeps its symbol, shares and cost and is consistent;
   * without a quote it is priced at cost with no gain.
   */
  lemma ValuedHoldingConsistent(h: Holding, quote: Option<real>)
    requires ValidHolding(h)
    ensures var v := ValueHolding(h, quote);
      v.symbol == h.symbol && v.shares == h.shares && v.averageCost == h.averageCost
      && Consistent(v)
      && (quote.Some? ==> v.currentPrice == quote)
      && (quote.None? ==>
            v.currentPrice == Some(h.averageCost) && v.value == Some(h.shares * h.averageCost)
            && v.gainLoss == Some(0.0) && v.gainLossPercent == Some(0.0))
  {
    var v := ValueHolding(h, quote);
    var cost := h.shares * h.averageCost;
    assert cost > 0.0 by {
      PositiveProduct(h.shares, h.averageCost);
    }
    match quote
    case Some(price) =>
      assert v.gainLoss.value == v.value.value - cost;
      assert v.gainLossPercent.value == v.gainLoss.value / cost * 100.0;
    case None =>
      assert v.value.value - cost == 0.0;
      assert 0.0 / cost * 100.0 == 0.0;
  }

  lemma PositiveProduct(a: real, b: real)
    requires a > 0.0 && b > 0.0
    ensures a * b > 0.0
  {
  }

  lemma ValuedHoldingValue(h: Holding, quote: Option<real>)
    requires ValidHolding(h)
    ensures ValueHolding(h, quote).value.GetOr(0.0) == h.shares * quote.GetOr(h.averageCost)
    ensures quote.Some? && quote.value != 0.0 ==> EffectivePrice(ValueHolding(h, quote)) == quote.value
    ensures quote.None? ==> EffectivePrice(ValueHolding(h, quote)) == h.averageCost
  {
  }

  /** `Σ holding.value` */
  function ValueSum(hs: seq<Holding>): real {
    if hs == [] then 0.0 else ValueSum(hs[..|hs| - 1]) + hs[|hs| - 1].value.GetOr(0.0)
  }

  /** The create/update total: `Σ shares × (quote price, or averageCost when the lookup fails)`. */
  /** One holding at its quote, or at cost when the quote fails. */
  function QuotedValue(h: Holding, quotes: map<string, real>): real {
    h.shares * Quote(quotes, h.symbol).GetOr(h.averageCost)
  }

  function QuotedTotal(hs: seq<Holding>, quotes: map<string, real>): (t: real)
    ensures quotes == map[] ==> t == CostBasis(hs)
  {
    if hs == [] then 0.0
    else
      var h := hs[|hs| - 1];
      QuotedTotal(hs[..|hs| - 1], quotes) + QuotedValue(h, quotes)
  }

  /**
   * The valuation loop of GET `/` and GET `/:id`: every holding is valued in
   * place and `totalValue` accumulates the holdings' values.
   */
  method ValueHoldings(holdings: array<Holding>, quotes: map<string, real>) returns (totalValue: real)
    requires AllValidHoldings(holdings[..])
    modifies holdings
    ensures holdings[..] == Valued(old(holdings[..]), quotes)
    ensures totalValue == ValueSum(holdings[..])
  {
    ghost var original := holdings[..];
    totalValue := 0.0;
    for i := 0 to holdings.Length
      invariant forall j :: 0 <= j < i ==> holdings[j] == ValueHolding(original[j], Quote(quotes, original[j].symbol))
      invariant forall j :: i <= j < holdings.Length ==> holdings[j] == original[j]
      invariant totalValue == ValueSum(holdings[..i])
    {
      var holding := holdings[i];
      assert ValidHolding(holding) by {
        assert holding == original[i];
      }
      holdings[i] := ValueHolding(holding, Quote(quotes, holding.symbol));
      assert holdings[..i + 1][..i] == holdings[..i];
      totalValue := totalValue + holdings[i].value.value;
    }
    ValuedPointwise(original, quotes);
    assert holdings[..] == holdings[..holdings.Length];
  }

  /** The running total of POST and PUT. */
  method CalculateQuotedTotal(hs: seq<Holding>, quotes: map<string, real>) returns (totalValue: real)
    ensures totalValue == QuotedTotal(hs, quotes)
  {
    totalValue := 0.0;
    for i := 0 to |hs|
      invariant totalValue == QuotedTotal(hs[..i], quotes)
    {
      var holding := hs[i];
      match Quote(quotes, holding.symbol)
      case Some(price) =>
        totalValue := totalValue + holding.shares * price;
      case None =>
        totalValue := totalValue + holding.shares * holding.averageCost;
      assert hs[..i + 1][..i] == hs[..i];
    }
    assert hs[..|hs|] == hs;
  }

  /**
   * For the same quotes, the total shown by a GET (sum of the valued
   * holdings) is the total stored by a create or update.
   */
  lemma {:induction false} ValuedTotalIsQuotedTotal(hs: seq<Holding>, quotes: map<string, real>)
    requires AllValidHoldings(hs)
    ensures ValueSum(Valued(hs, quotes)) == QuotedTotal(hs, quotes)
  {
    if hs != [] {
      var init := hs[..|hs| - 1];
      var last := hs[|hs| - 1];
      ValuedStep(hs, quotes);
      ValuedTotalIsQuotedTotal(init, quotes);
      ValuedHoldingValue(last, Quote(quotes, last.symbol));

    }
  }

  /** Without any live quote the total is the cost basis. */
  lemma {:induction false} UnquotedTotalIsCostBasis(hs: seq<Holding>, quotes: map<string, real>)
    requires forall i :: 0 <= i < |hs| ==> hs[i].symbol !in quotes
    ensures QuotedTotal(hs, quotes) == CostBasis(hs)
  {
    if hs != [] {
      UnquotedTotalIsCostBasis(hs[..|hs| - 1], quotes);
    }
  }

  /** A valued holding, marked at `currentPrice || averageCost`, is worth what the quoted total counts for it. */
  lemma MarkedValuedHolding(h: Holding, quotes: map<string, real>)
    requires ValidHolding(h)
    requires h.symbol in quotes ==> quotes[h.symbol] != 0.0
    ensures Marked(ValueHolding(h, Quote(quotes, h.symbol))) == QuotedValue(h, quotes)
  {
    ValuedHoldingValue(h, Quote(quotes, h.symbol));
  }

  /**
   * Valuing marks each holding at its price: with non-zero quotes the valued
   * holdings' `currentPrice || averageCost` sum is the same total.
   */
  /** One step of the quoted total. */
  lemma QuotedTotalStep(hs: seq<Holding>, quotes: map<string, real>)
    requires hs != []
    ensures var last := hs[|hs| - 1];
      QuotedTotal(hs, quotes) == QuotedTotal(hs[..|hs| - 1], quotes) + QuotedValue(last, quotes)
  {
  }

  /** Re-marking one more valued holding adds its quoted value. */
  lemma {:induction false} MarkedValuedStep(hs: seq<Holding>, quotes: map<string, real>)
    requires AllValidHoldings(hs) && hs != []
    requires forall s :: s in quotes ==> quotes[s] != 0.0
    ensures var last := hs[|hs| - 1];
      MarkedValue(Valued(hs, quotes))
      == MarkedValue(Valued(hs[..|hs| - 1], quotes)) + QuotedValue(last, quotes)
  {
    var init := hs[..|hs| - 1];
    var last := hs[|hs| - 1];
    var vl := ValueHolding(last, Quote(quotes, last.symbol));
    ValuedStep(hs, quotes);
    MarkedValueStep(Valued(init, quotes), vl);
    MarkedValuedHolding(last, quotes);
  }

  lemma {:induction false} ValuedMarkedValue(hs: seq<Holding>, quotes: map<string, real>)
    requires AllValidHoldings(hs)
    requires forall s :: s in quotes ==> quotes[s] != 0.0
    ensures MarkedValue(Valued(hs, quotes)) == QuotedTotal(hs, quotes)
  {
    if hs != [] {
      MarkedValuedStep(hs, quotes);
      ValuedMarkedValue(hs[..|hs| - 1], quotes);
      QuotedTotalStep(hs, quotes);
    }
  }

  // ------------------------------------------------------------------
  // Performance
  // ------------------------------------------------------------------

  /** The four `Math.random()` draws behind the mock period changes. */
  datatype PerformanceDraws = PerformanceDraws(daily: Unit, weekly: Unit, monthly: Unit, yearly: Unit)

  datatype Performance = Performance(
    totalValue: real,
    totalCost: real,
    totalGainLoss: real,
    totalGainLossPercent: real,
    dailyChange: real,
    weeklyChange: real,
    monthlyChange: real,
    yearlyChange: real)

  /** `calculatePortfolioPerformance`; the requested date range is not used. */
  function PortfolioPerformance(hs: seq<Holding>, draws: PerformanceDraws): (p: Performance)
    ensures -2.0 <= p.dailyChange < 2.0 && -5.0 <= p.weeklyChange < 5.0
    ensures -10.0 <= p.monthlyChange < 10.0 && -20.0 <= p.yearlyChange < 20.0
  {
    var totalValue := MarkedValue(hs);
    var totalCost := CostBasis(hs);
    var totalGainLoss := totalValue - totalCost;
    Performance(totalValue, totalCost, totalGainLoss,
                if totalCost > 0.0 then totalGainLoss / totalCost * 100.0 else 0.0,
                draws.daily * 4.0 - 2.0, draws.weekly * 10.0 - 5.0,
                draws.monthly * 20.0 - 10.0, draws.yearly * 40.0 - 20.0)
  }

  /**
   * The performance gain is the same gain the alpha score uses, and for
   * valid holdings the percentage is taken over a positive cost exactly
   * when there is a holding; with none, every figure is 0.
   */
  lemma PerformanceGain(hs: seq<Holding>, draws: PerformanceDraws)
    requires AllValidHoldings(hs)
    ensures PortfolioPerformance(hs, draws).totalGainLoss == AlphaScoreService.GainLoss(hs)
    ensures hs != [] ==>
      (PortfolioPerformance(hs, draws).totalCost > 0.0 &&
       PortfolioPerformance(hs, draws).totalGainLossPercent == AlphaScoreService.GainLoss(hs) / CostBasis(hs) * 100.0)
    ensures hs == [] ==>
      (PortfolioPerformance(hs, draws).totalValue == 0.0 && PortfolioPerformance(hs, draws).totalGainLossPercent == 0.0)
  {
    AlphaScoreService.GainLossIsValueMinusCost(hs);
    CostBasisPositive(hs);
  }

  /** Holdings carrying no price are marked at cost, so they show no gain at all. */
  lemma {:induction false} UnpricedPerformanceFlat(hs: seq<Holding>, draws: PerformanceDraws)
    requires forall i :: 0 <= i < |hs| ==> hs[i].currentPrice == None
    ensures PortfolioPerformance(hs, draws).totalValue == PortfolioPerformance(hs, draws).totalCost
    ensures PortfolioPerformance(hs, draws).totalGainLoss == 0.0
    ensures PortfolioPerformance(hs, draws).totalGainLossPercent == 0.0
  {
    AlphaScoreService.UnpricedHoldingsHaveNoGain(hs);
    AlphaScoreService.GainLossIsValueMinusCost(hs);
  }

  // ------------------------------------------------------------------
  // The portfolio store
  // ------------------------------------------------------------------

  datatype PortfolioRow = PortfolioRow(id: string, userId: string, name: string, totalValue: real,
                                       createdAt: Millis, updatedAt: Millis)

  /** A portfolio as the GET routes return it: the row with its holdings attached. */
  datatype PortfolioView = PortfolioView(row: PortfolioRow, holdings: seq<Holding>)

  /** The PUT response: the merged row, carrying the holdings only when the body had them. */
  datatype UpdatedPortfolio = UpdatedPortfolio(row: PortfolioRow, holdings: Option<seq<Holding>>)

  /** The validated PUT body; absent fields are `None`. */
  datatype PortfolioPatch = PortfolioPatch(name: Option<string>, holdings: Option<seq<Holding>>)

  datatype CacheEntry =
    | ListEntry(views: seq<PortfolioView>, expiresAt: Millis)
    | ItemEntry(view: PortfolioView, expiresAt: Millis)

  datatype ApiError = NotFound | ServerError(message: string)

  function ListKey(userId: string): string {
    "portfolios:" + userId
  }

  function ItemKey(portfolioId: string): string {
    "portfolio:" + portfolioId
  }

  /** What a holding row keeps of a request holding: symbol, shares and cost. */
  function Stored(h: Holding): Holding {
    Holding(h.symbol, h.shares, h.averageCost, None, None, None, None)
  }

  function StoredAll(hs: seq<Holding>): (r: seq<Holding>)
    ensures |r| == |hs| && forall i :: 0 <= i < |hs| ==> r[i] == Stored(hs[i])
  {
    seq(|hs|, i requires 0 <= i < |hs| => Stored(hs[i]))
  }

  /**
   * The tables are consistent: rows are keyed by their id, holdings belong to
   * existing portfolios, and stored holdings are validated and carry no
   * derived fields.
   */
  ghost predicate Tables(rows: map<string, PortfolioRow>, holdingRows: map<string, seq<Holding>>) {
    (forall id :: id in rows ==> rows[id].id == id)
    && (forall id :: id in holdingRows ==> id in rows)
    && (forall id :: id in holdingRows ==> AllValidHoldings(holdingRows[id]))
    && (forall id, i :: id in holdingRows && 0 <= i < |holdingRows[id]| ==> holdingRows[id][i].currentPrice == None)
  }

  /** Writing a row under its own id, with or without new holdings, keeps the tables consistent. */
  lemma PutRowKeepsTables(rows: map<string, PortfolioRow>, holdingRows: map<string, seq<Holding>>,
                          row: PortfolioRow, holdings: Option<seq<Holding>>)
    requires Tables(rows, holdingRows)
    requires holdings.Some? ==> AllValidHoldings(holdings.value)
    ensures Tables(rows[row.id := row], holdingRows)
    ensures holdings.Some? ==> Tables(rows[row.id := row], holdingRows[row.id := StoredAll(holdings.value)])
  {
    if holdings.Some? {
      var hr: map<string, seq<Holding>> := holdingRows[row.id := StoredAll(holdings.value)];
      forall id: string, i: int | id in hr && 0 <= i < |hr[id]|
        ensures hr[id][i].currentPrice == None && ValidHolding(hr[id][i])
      {
        if id == row.id {
          assert hr[id][i] == Stored(holdings.value[i]);
        }
      }
    }
  }

  /** A second write under the same key replaces the first. */
  lemma Overwrite<V>(m: map<string, V>, k: string, v: V, v': V)
    ensures m[k := v][k := v'] == m[k := v']
  {
  }

  /** Deleting two cache keys one after the other deletes both. */
  lemma DeleteTwice<V>(m: map<string, V>, a: string, b: string)
    ensures m - {a} - {b} == m - {a, b}
  {
  }

  /** Removing a portfolio with its holdings keeps the tables consistent. */
  lemma RemoveKeepsTables(rows: map<string, PortfolioRow>, holdingRows: map<string, seq<Holding>>, id: string)
    requires Tables(rows, holdingRows)
    ensures Tables(rows - {id}, holdingRows - {id})
  {
  }

  /** The `portfolios` and `portfolio_holdings` tables and the cache in front of them. */
  class PortfolioStore {
    var rows: map<string, PortfolioRow>
    var holdingRows: map<string, seq<Holding>>
    var cache: map<string, CacheEntry>

    /**
     * Rows are keyed by their id, holdings belong to existing portfolios,
     * and stored holdings are validated and carry no derived fields.
     */
    ghost predicate Valid()
      reads this`rows, this`holdingRows
    {
      Tables(rows, holdingRows)
    }

    constructor ()
      ensures Valid() && rows == map[] && holdingRows == map[] && cache == map[]
    {
      rows, holdingRows, cache := map[], map[], map[];
    }

    predicate Owns(userId: string, portfolioId: string)
      reads this`rows, this`holdingRows
    {
      portfolioId in rows && rows[portfolioId].userId == userId
    }

    function HoldingsOf(portfolioId: string): seq<Holding>
      reads this`rows, this`holdingRows
    {
      if portfolioId in holdingRows then holdingRows[portfolioId] else []
    }

    /** A stored portfolio valued against the given quotes. */
    function ValuedView(portfolioId: string, quotes: map<string, real>): (v: PortfolioView)
      requires Valid() && portfolioId in rows
      reads this`rows, this`holdingRows
      ensures v.holdings == Valued(HoldingsOf(portfolioId), quotes)
      ensures v.row == rows[portfolioId].(totalValue := QuotedTotal(HoldingsOf(portfolioId), quotes))
    {
      var valued := Valued(HoldingsOf(portfolioId), quotes);
      ValuedTotalIsQuotedTotal(HoldingsOf(portfolioId), quotes);
      PortfolioView(rows[portfolioId].(totalValue := ValueSum(valued)), valued)
    }

    /** The views of the listed portfolios, in listing order. */
    function ListingViews(order: seq<string>, quotes: map<string, real>): (r: seq<PortfolioView>)
      requires Valid() && forall id :: id in order ==> id in rows
      reads this`rows, this`holdingRows
      ensures |r| == |order|
    {
      if order == [] then []
      else ListingViews(order[..|order| - 1], quotes) + [ValuedView(order[|order| - 1], quotes)]
    }

    /** The i-th view of a listing is the i-th listed portfolio, valued. */
    lemma {:induction false} ListingViewsPointwise(order: seq<string>, quotes: map<string, real>)
      requires Valid() && forall id :: id in order ==> id in rows
      ensures forall i :: 0 <= i < |order| ==> ListingViews(order, quotes)[i] == ValuedView(order[i], quotes)
    {
      if order != [] {
        var n := |order| - 1;
        assert forall i :: 0 <= i < n ==> order[..n][i] == order[i];
        ListingViewsPointwise(order[..n], quotes);
      }
    }

    /** The contract of the listing query: the user's portfolios, each once, most recently updated first. */
    ghost predicate UserListing(userId: string, order: seq<string>)
      reads this`rows, this`holdingRows
    {
      (forall i :: 0 <= i < |order| ==> Owns(userId, order[i]))
      && (forall id :: Owns(userId, id) ==> id in order)
      && (forall i, j :: 0 <= i < j < |order| ==> order[i] != order[j] && rows[order[i]].updatedAt >= rows[order[j]].updatedAt)
    }

    /** Values one stored portfolio through the in-place loop. */
    method ValuePortfolio(portfolioId: string, quotes: map<string, real>) returns (view: PortfolioView)
      requires Valid() && portfolioId in rows
      ensures view == ValuedView(portfolioId, quotes)
    {
      var hs := HoldingsOf(portfolioId);
      var holdings := new Holding[|hs|](i requires 0 <= i < |hs| => hs[i]);
      assert holdings[..] == hs;
      var totalValue := ValueHoldings(holdings, quotes);
      view := PortfolioView(rows[portfolioId].(totalValue := totalValue), holdings[..]);
    }

    /** The outer loop of GET `/`: each listed portfolio valued in turn. */
    method ValueListing(order: seq<string>, quotes: map<string, real>) returns (views: seq<PortfolioView>)
      requires Valid() && forall id :: id in order ==> id in rows
      ensures views == ListingViews(order, quotes)
    {
      views := [];
      for i := 0 to |order|
        invariant views == ListingViews(order[..i], quotes)
      {
        var view := ValuePortfolio(order[i], quotes);
        assert order[..i + 1][..i] == order[..i];
        views := views + [view];
      }
      assert order[..|order|] == order;
    }

    /** GET `/`: the cached list, or every portfolio of the user valued and cached for five minutes. */
    method ListPortfolios(userId: string, order: seq<string>, quotes: map<string, real>, now: Millis)
      returns (views: seq<PortfolioView>)
      requires Valid() && UserListing(userId, order)
      modifies this
      ensures Valid() && rows == old(rows) && holdingRows == old(holdingRows)
      ensures var key := ListKey(userId);
        if key in old(cache) && old(cache)[key].ListEntry? && now < old(cache)[key].expiresAt then
          views == old(cache)[key].views && cache == old(cache)
        else
          views == ListingViews(order, quotes)
          && cache == old(cache)[key := ListEntry(views, now + ListCacheTtlSeconds * 1000)]
    {
      var cacheKey := ListKey(userId);
      if cacheKey in cache && cache[cacheKey].ListEntry? && now < cache[cacheKey].expiresAt {
        return cache[cacheKey].views;
      }
      views := ValueListing(order, quotes);
      cache := cache[cacheKey := ListEntry(views, now + ListCacheTtlSeconds * 1000)];
    }

    /**
     * GET `/:id`: a cached copy is served only to its owner; otherwise the
     * portfolio is read (404 when it is not the caller's), valued and
     * cached for two minutes.
     */
    method GetPortfolio(userId: string, portfolioId: string, quotes: map<string, real>, now: Millis)
      returns (r: Result<PortfolioView, ApiError>)
      requires Valid()
      modifies this
      ensures Valid() && rows == old(rows) && holdingRows == old(holdingRows)
      ensures var key := ItemKey(portfolioId);
        if key in old(cache) && old(cache)[key].ItemEntry? && now < old(cache)[key].expiresAt
           && old(cache)[key].view.row.userId == userId then
          r == Success(old(cache)[key].view) && cache == old(cache)
        else if !Owns(userId, portfolioId) then
          r == Failure(NotFound) && cache == old(cache)
        else
          r == Success(ValuedView(portfolioId, quotes))
          && cache == old(cache)[key := ItemEntry(r.value, now + ItemCacheTtlSeconds * 1000)]
      ensures r.Success? ==> r.value.row.userId == userId
    {
      var cacheKey := ItemKey(portfolioId);
      if cacheKey in cache && cache[cacheKey].ItemEntry? && now < cache[cacheKey].expiresAt {
        var cached := cache[cacheKey].view;
        if cached.row.userId == userId {
          return Success(cached);
        }
      }
      if !(portfolioId in rows && rows[portfolioId].userId == userId) {
        return Failure(NotFound);
      }
      var view := ValuePortfolio(portfolioId, quotes);
      cache := cache[cacheKey := ItemEntry(view, now + ItemCacheTtlSeconds * 1000)];
      r := Success(view);
    }

    /**
     * POST `/`: inserts the row and its holdings, stores the quoted total and
     * clears the user's list cache. The response is the row as first
     * inserted (total 0) with the request's holdings. An id that is already
     * taken makes the insert fail.
     */
    method CreatePortfolio(userId: string, name: string, holdings: seq<Holding>, newId: string,
                           quotes: map<string, real>, now: Millis)
      returns (r: Result<PortfolioView, ApiError>)
      requires Valid() && AllValidHoldings(holdings)
      modifies this
      ensures Valid()
      ensures newId in old(rows) ==>
        r == Failure(ServerError("Failed to create portfolio")) && rows == old(rows)
        && holdingRows == old(holdingRows) && cache == old(cache)
      ensures newId !in old(rows) ==>
        r == Success(PortfolioView(PortfolioRow(newId, userId, name, 0.0, now, now), holdings))
        && rows == old(rows)[newId := PortfolioRow(newId, userId, name, QuotedTotal(holdings, quotes), now, now)]
        && holdingRows == old(holdingRows)[newId := StoredAll(holdings)]
        && cache == old(cache) - {ListKey(userId)}
    {
      if newId in rows {
        return Failure(ServerError("Failed to create portfolio"));
      }
      var portfolio := PortfolioRow(newId, userId, name, 0.0, now, now);
      var stored := portfolio.(totalValue := QuotedTotal(holdings, quotes));
      PutRowKeepsTables(rows, holdingRows, stored, Some(holdings));
      Overwrite(rows, newId, portfolio, stored);
      rows := rows[newId := portfolio];
      holdingRows := holdingRows[newId := StoredAll(holdings)];
      var totalValue := CalculateQuotedTotal(holdings, quotes);
      assert portfolio.(totalValue := totalValue, updatedAt := now) == stored;
      rows := rows[newId := portfolio.(totalValue := totalValue, updatedAt := now)];
      cache := cache - {ListKey(userId)};
      r := Success(PortfolioView(portfolio, holdings));
    }

    /**
     * PUT `/:id`: fields in the body override the row, `updatedAt` is
     * refreshed, and holdings in the body (even an empty list) replace the
     * stored set wholesale and re-total the portfolio. Both caches are cleared.
     */
    method UpdatePortfolio(userId: string, portfolioId: string, patch: PortfolioPatch,
                           quotes: map<string, real>, now: Millis)
      returns (r: Result<UpdatedPortfolio, ApiError>)
      requires Valid()
      requires patch.holdings.Some? ==> AllValidHoldings(patch.holdings.value)
      modifies this
      ensures Valid()
      ensures !old(Owns(userId, portfolioId)) ==>
        r == Failure(NotFound) && rows == old(rows) && holdingRows == old(holdingRows) && cache == old(cache)
      ensures old(Owns(userId, portfolioId)) ==>
        var before := old(rows)[portfolioId];
        var merged := before.(name := patch.name.GetOr(before.name), updatedAt := now);
        var row := if patch.holdings.Some? then merged.(totalValue := QuotedTotal(patch.holdings.value, quotes)) else merged;
        r == Success(UpdatedPortfolio(row, patch.holdings))
        && rows == old(rows)[portfolioId := row]
        && holdingRows == (if patch.holdings.Some? then old(holdingRows)[portfolioId := StoredAll(patch.holdings.value)]
                           else old(holdingRows))
        && cache == old(cache) - {ItemKey(portfolioId), ListKey(userId)}
    {
      if !(portfolioId in rows && rows[portfolioId].userId == userId) {
        return Failure(NotFound);
      }
      var portfolio := rows[portfolioId];
      var updatedPortfolio := portfolio.(name := patch.name.GetOr(portfolio.name), updatedAt := now);
      ghost var stored := if patch.holdings.Some? then updatedPortfolio.(totalValue := QuotedTotal(patch.holdings.value, quotes))
                          else updatedPortfolio;
      PutRowKeepsTables(rows, holdingRows, stored, patch.holdings);
      Overwrite(rows, portfolioId, updatedPortfolio, stored);
      rows := rows[portfolioId := updatedPortfolio];
      if patch.holdings.Some? {
        holdingRows := holdingRows[portfolioId := StoredAll(patch.holdings.value)];
        var totalValue := CalculateQuotedTotal(patch.holdings.value, quotes);
        updatedPortfolio := updatedPortfolio.(totalValue := totalValue);
        rows := rows[portfolioId := updatedPortfolio];
      }
      assert updatedPortfolio == stored;
      DeleteTwice(cache, ItemKey(portfolioId), ListKey(userId));
      cache := cache - {ItemKey(portfolioId)};
      cache := cache - {ListKey(userId)};
      r := Success(UpdatedPortfolio(updatedPortfolio, patch.holdings));
    }

    /** DELETE `/:id`: removes the holdings and the row of an owned portfolio and clears both caches. */
    method DeletePortfolio(userId: string, portfolioId: string) returns (r: Result<(), ApiError>)
      requires Valid()
      modifies this
      ensures Valid()
      ensures !old(Owns(userId, portfolioId)) ==>
        r == Failure(NotFound) && rows == old(rows) && holdingRows == old(holdingRows) && cache == old(cache)
      ensures old(Owns(userId, portfolioId)) ==>
        r == Success(()) && rows == old(rows) - {portfolioId} && holdingRows == old(holdingRows) - {portfolioId}
        && cache == old(cache) - {ItemKey(portfolioId), ListKey(userId)}
    {
      if !(portfolioId in rows && rows[portfolioId].userId == userId) {
        return Failure(NotFound);
      }
      RemoveKeepsTables(rows, holdingRows, portfolioId);
      DeleteTwice(cache, ItemKey(portfolioId), ListKey(userId));
      holdingRows := holdingRows - {portfolioId};
      rows := rows - {portfolioId};
      cache := cache - {ItemKey(portfolioId)};
      cache := cache - {ListKey(userId)};
      r := Success(());
    }

    /**
     * GET `/:id/performance` of an owned portfolio. Stored holdings carry no
     * price, so the reported gain is always zero.
     */
    method GetPerformance(userId: string, portfolioId: string, draws: PerformanceDraws)
      returns (r: Result<Performance, ApiError>)
      requires Valid()
      ensures !Owns(userId, portfolioId) <==> r == Failure(NotFound)
      ensures r.Success? ==> r.value == PortfolioPerformance(HoldingsOf(portfolioId), draws)
      ensures r.Success? ==> r.value.totalGainLoss == 0.0 && r.value.totalGainLossPercent == 0.0
    {
      if !(portfolioId in rows && rows[portfolioId].userId == userId) {
        return Failure(NotFound);
      }
      var holdings := HoldingsOf(portfolioId);
      UnpricedPerformanceFlat(holdings, draws);
      r := Success(PortfolioPerformance(holdings, draws));
    }
  }

  /**
   * A freshly created portfolio, listed again with the same quotes, shows
   * the total the create stored, and every one of its holdings is valued.
   */
  lemma CreatedPortfolioValuedConsistently(store: PortfolioStore, id: string, holdings: seq<Holding>,
                                            quotes: map<string, real>)
    requires store.Valid() && id in store.rows && id in store.holdingRows
    requires AllValidHoldings(holdings) && store.holdingRows[id] == StoredAll(holdings)
    requires store.rows[id].totalValue == QuotedTotal(holdings, quotes)
    ensures store.ValuedView(id, quotes).row == store.rows[id]
  {
    StoredTotal(holdings, quotes);
  }

  /** Stripping a holding down to its stored columns keeps what the total depends on. */
  lemma {:induction false} StoredTotal(hs: seq<Holding>, quotes: map<string, real>)
    ensures QuotedTotal(StoredAll(hs), quotes) == QuotedTotal(hs, quotes)
  {
    if hs != [] {
      assert StoredAll(hs)[..|hs| - 1] == StoredAll(hs[..|hs| - 1]);
      StoredTotal(hs[..|hs| - 1], quotes);
    }
  }
}
