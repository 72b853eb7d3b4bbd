/**
 * The entities shared by the backend's services and routes
 * (backend/src/types/index.ts), together with the few pieces of arithmetic
 * every component uses the same way: the price a holding is marked at,
 * the seven-day recency window and two-decimal rounding.
 */
module Domain {
  import opened Wrappers

  /** Milliseconds since the epoch; "now" is always passed in. */
  type Millis = nat

  /** One draw of `Math.random()`. */
  type Unit = u: real | 0.0 <= u < 1.0

  const MsPerDay: nat := 1000 * 60 * 60 * 24

  /** `7 * 24 * 60 * 60 * 1000` */
  const WeekMs: nat := 7 * 24 * 60 * 60 * 1000

  /** The recency filter the score and the insights both use: strictly less than seven days old. */
  predicate WithinLastWeek(now: Millis, t: Millis) {
    now - t < WeekMs
  }

  datatype Severity = Low | Medium | High

  datatype Direction = Bullish | Bearish | Neutral

  datatype TimeHorizon = ShortTerm | MediumTerm | LongTerm

  function DirectionName(d: Direction): string {
    match d
    case Bullish => "bullish"
    case Bearish => "bearish"
    case Neutral => "neutral"
  }

  /** A position; the four optional fields are filled in by valuation. */
  datatype Holding = Holding(
    symbol: string,
    shares: real,
    averageCost: real,
    currentPrice: Option<real>,
    value: Option<real>,
    gainLoss: Option<real>,
    gainLossPercent: Option<real>)

  /** What request validation guarantees of every stored holding: positive shares and cost. */
  predicate ValidHolding(h: Holding) {
    h.shares > 0.0 && h.averageCost > 0.0
  }

  predicate AllValidHoldings(hs: seq<Holding>) {
    forall i :: 0 <= i < |hs| ==> ValidHolding(hs[i])
  }

  /** `holding.currentPrice || holding.averageCost`: a missing or zero price falls back to cost. */
  function EffectivePrice(h: Holding): (p: real)
    ensures h.currentPrice.Some? && h.currentPrice.value != 0.0 ==> p == h.currentPrice.value
    ensures h.currentPrice.None? || h.currentPrice.value == 0.0 ==> p == h.averageCost
  {
    match h.currentPrice
    case Some(p) => if p != 0.0 then p else h.averageCost
    case None => h.averageCost
  }

  /** `Σ shares × (currentPrice || averageCost)` */
  /** No holding carries a price yet, as in rows read straight from the holdings table. */
  predicate Unpriced(hs: seq<Holding>) {
    forall i :: 0 <= i < |hs| ==> hs[i].currentPrice.None?
  }

  /** `shares × (currentPrice || averageCost)` */
  function Marked(h: Holding): real {
    h.shares * EffectivePrice(h)
  }

  function MarkedValue(hs: seq<Holding>): (v: real)
    ensures Unpriced(hs) ==> v == CostBasis(hs)
  {
    if hs == [] then 0.0
    else
      var n := |hs| - 1;
      assert Unpriced(hs) ==> Unpriced(hs[..n]) by {
        assert forall i :: 0 <= i < n ==> hs[..n][i] == hs[i];
      }
      MarkedValue(hs[..n]) + Marked(hs[n])
  }

  /** One step of the mark-to-market sum, for callers that build the sequence by appending. */
  lemma MarkedValueStep(init: seq<Holding>, h: Holding)
    ensures MarkedValue(init + [h]) == MarkedValue(init) + Marked(h)
  {
    assert (init + [h])[..|init|] == init;
  }

  /** `Σ shares × averageCost` */
  function CostBasis(hs: seq<Holding>): real {
    if hs == [] then 0.0
    else CostBasis(hs[..|hs| - 1]) + hs[|hs| - 1].shares * hs[|hs| - 1].averageCost
  }

  /** Valid holdings have a positive cost basis whenever there is at least one. */
  lemma {:induction false} CostBasisPositive(hs: seq<Holding>)
    requires AllValidHoldings(hs)
    ensures hs == [] ==> CostBasis(hs) == 0.0
    ensures hs != [] ==> CostBasis(hs) > 0.0
  {
    if hs != [] {
      var last := hs[|hs| - 1];
      assert ValidHolding(last);
      CostBasisPositive(hs[..|hs| - 1]);
      assert last.shares * last.averageCost > 0.0;
    }
  }

  datatype BiasAnalysis = BiasAnalysis(
    id: string,
    userId: string,
    biasType: string,
    severity: Severity,
    description: string,
    recommendation: string,
    detectedAt: Millis)

  datatype AlphaSignal = AlphaSignal(
    id: string,
    userId: string,
    asset: string,
    direction: Direction,
    confidence: real,
    timeHorizon: TimeHorizon,
    insight: string,
    sources: int,
    timestamp: Millis,
    category: string)

  /** The schema stores confidence as a decimal between 0.00 and 1.00. */
  predicate ValidSignal(s: AlphaSignal) {
    0.0 <= s.confidence <= 1.0
  }

  predicate AllValidSignals(ss: seq<AlphaSignal>) {
    forall s :: s in ss ==> ValidSignal(s)
  }

  datatype AlphaScore = AlphaScore(
    userId: string,
    score: real,
    improvement: real,
    period: string,
    biasesCorrected: nat,
    opportunitiesMissed: nat,
    calculatedAt: Millis)

  /** `Math.round(x * 100) / 100` on exact reals: `Math.round` rounds halves up. */
  function Round2(x: real): (r: real)
    ensures x - 0.005 < r <= x + 0.005
  {
    var k := (x * 100.0 + 0.5).Floor;
    assert k as real <= x * 100.0 + 0.5 < k as real + 1.0;
    (k as real) / 100.0
  }

  /** A rounded amount is a whole number of cents. */
  lemma Round2WholeCents(x: real)
    ensures (Round2(x) * 100.0).Floor as real == Round2(x) * 100.0
  {
    var k := (x * 100.0 + 0.5).Floor;
    assert Round2(x) * 100.0 == k as real;
  }

  /** Rounding to two decimals is monotone. */
  lemma Round2Monotone(x: real, y: real)
    requires x <= y
    ensures Round2(x) <= Round2(y)
  {
    var a, b := x * 100.0 + 0.5, y * 100.0 + 0.5;
    assert a <= b;
    assert a.Floor <= b.Floor;
  }

  /** Rounding fixes 0 and 100 and moves a value by at most half a cent. */
  lemma Round2Bounds(x: real)
    ensures Round2(0.0) == 0.0 && Round2(100.0) == 100.0
    ensures x - 0.005 < Round2(x) <= x + 0.005
  {
    assert (0.5).Floor == 0;
    assert (10000.5).Floor == 10000;
    var a := x * 100.0 + 0.5;
    assert a.Floor as real <= a < a.Floor as real + 1.0;
  }

  /** `.limit(n)` applied to rows already in query order. */
  function Take<T>(xs: seq<T>, n: nat): (r: seq<T>)
    ensures |r| <= n && |r| <= |xs|
    ensures |r| == if |xs| <= n then |xs| else n
    ensures r == xs[..|r|]
    ensures |xs| <= n ==> r == xs
  {
    if |xs| <= n then xs else xs[..n]
  }
}
