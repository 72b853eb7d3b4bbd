/**
 * The alpha-score engine (backend/src/services/alphaScoreService.ts):
 * the three sub-scores, their composition into an AlphaScore, the
 * read-through score cache, the bias-detection pipeline and the signal
 * generator. Store reads are parameters (`None` is a read that threw, which
 * the service turns into an empty list); `Math.random` draws and detector
 * outcomes are inputs.
 */
module AlphaScoreService {
  import opened Wrappers
  import opened Text
  import opened Domain

  /** The assumed annual market return, in percent. */
  const MarketAverage: real := 8.0

  const ScoreTtlSeconds: nat := 3600

  const BiasFetchLimit: nat := 50

  const SignalFetchLimit: nat := 100

  // ------------------------------------------------------------------
  // Portfolio score
  // ------------------------------------------------------------------

  /** `Σ (shares × (currentPrice || averageCost) − shares × averageCost)` */
  function GainLoss(hs: seq<Holding>): real {
    if hs == [] then 0.0
    else
      var h := hs[|hs| - 1];
      GainLoss(hs[..|hs| - 1]) + (h.shares * EffectivePrice(h) - h.shares * h.averageCost)
  }

  /** Total gain over total current value, in percent; 0 when the value is not positive. */
  function ReturnPct(hs: seq<Holding>): (r: real)
    ensures MarkedValue(hs) > 0.0 ==> r * MarkedValue(hs) == GainLoss(hs) * 100.0
    ensures MarkedValue(hs) <= 0.0 ==> r == 0.0
  {
    var value := MarkedValue(hs);
    if value > 0.0 then GainLoss(hs) / value * 100.0 else 0.0
  }

  /** Two score points per percentage point above or below the market, clamped to [0, 100]. */
  function ScoreForReturn(ret: real): (s: real)
    ensures 0.0 <= s <= 100.0
    ensures MarketAverage - 25.0 <= ret <= MarketAverage + 25.0 ==> s == 50.0 + (ret - MarketAverage) * 2.0
  {
    Min(100.0, Max(0.0, 50.0 + (ret - MarketAverage) * 2.0))
  }

  lemma ScoreForReturnMonotone(r1: real, r2: real)
    requires r1 <= r2
    ensures ScoreForReturn(r1) <= ScoreForReturn(r2)
  {
  }

  /** The portfolio sub-score: neutral 50 for an empty portfolio. */
  function PortfolioScore(hs: seq<Holding>): (s: real)
    ensures 0.0 <= s <= 100.0
    ensures hs == [] ==> s == 50.0
  {
    if hs == [] then 50.0 else ScoreForReturn(ReturnPct(hs))
  }

  method CalculatePortfolioScore(hs: seq<Holding>) returns (score: real)
    ensures score == PortfolioScore(hs)
  {
    if |hs| == 0 {
      return 50.0;
    }
    var totalGainLoss, totalValue := 0.0, 0.0;
    for i := 0 to |hs|
      invariant totalGainLoss == GainLoss(hs[..i])
      invariant totalValue == MarkedValue(hs[..i])
    {
      var h := hs[i];
      var currentValue := h.shares * EffectivePrice(h);
      var costBasis := h.shares * h.averageCost;
      totalGainLoss := totalGainLoss + (currentValue - costBasis);
      totalValue := totalValue + currentValue;
      assert hs[..i + 1][..i] == hs[..i];
    }
    assert hs[..|hs|] == hs;
    var returnPercentage := if totalValue > 0.0 then totalGainLoss / totalValue * 100.0 else 0.0;
    score := Min(100.0, Max(0.0, 50.0 + (returnPercentage - MarketAverage) * 2.0));
  }

  /** The gain summed holding by holding is the marked value minus the cost basis. */
  lemma {:induction false} GainLossIsValueMinusCost(hs: seq<Holding>)
    ensures GainLoss(hs) == MarkedValue(hs) - CostBasis(hs)
  {
    if hs != [] {
      GainLossIsValueMinusCost(hs[..|hs| - 1]);
    }
  }

  /** Holdings marked at cost contribute no gain. */
  lemma {:induction false} UnpricedHoldingsHaveNoGain(hs: seq<Holding>)
    requires forall i :: 0 <= i < |hs| ==> hs[i].currentPrice == None
    ensures GainLoss(hs) == 0.0
  {
    if hs != [] {
      UnpricedHoldingsHaveNoGain(hs[..|hs| - 1]);
    }
  }

  /**
   * A non-empty portfolio without live prices earns a 0 % return and so
   * scores 50 + (0 − 8) × 2 = 34, below the 50 of an empty portfolio.
   */
  lemma UnpricedPortfolioScores34(hs: seq<Holding>)
    requires hs != []
    requires forall i :: 0 <= i < |hs| ==> hs[i].currentPrice == None
    ensures PortfolioScore(hs) == 34.0
  {
    UnpricedHoldingsHaveNoGain(hs);
  }

  // ------------------------------------------------------------------
  // Bias score
  // ------------------------------------------------------------------

  function DaysSince(now: Millis, t: Millis): real {
    (now - t) as real / MsPerDay as real
  }

  /** Linear decay over 30 days down to a floor of 0.1. */
  function RecencyWeight(now: Millis, t: Millis): (w: real)
    ensures w >= 0.1
    ensures t == now ==> w == 1.0
  {
    Max(0.1, 1.0 - DaysSince(now, t) / 30.0)
  }

  function SeverityPenalty(s: Severity): real {
    match s
    case High => 15.0
    case Medium => 10.0
    case Low => 5.0
  }

  function SeverityRank(s: Severity): nat {
    match s
    case Low => 0
    case Medium => 1
    case High => 2
  }

  function BiasPenalty(b: BiasAnalysis, now: Millis): real {
    SeverityPenalty(b.severity) * RecencyWeight(now, b.detectedAt)
  }

  /** `Σ severityPenalty × recencyWeight` over the findings. */
  function TotalPenalty(bs: seq<BiasAnalysis>, now: Millis): (t: real)
    ensures bs != [] ==> t > 0.0
  {
    if bs == [] then 0.0
    else
      PenaltyAtLeastHalf(bs[|bs| - 1], now);
      TotalPenalty(bs[..|bs| - 1], now) + BiasPenalty(bs[|bs| - 1], now)
  }

  /** The bias sub-score: a perfect 100 without biases. */
  function BiasScore(bs: seq<BiasAnalysis>, now: Millis): (s: real)
    ensures 0.0 <= s <= 100.0
    ensures bs == [] ==> s == 100.0
  {
    if bs == [] then 100.0 else Max(0.0, Min(100.0, 100.0 - TotalPenalty(bs, now)))
  }

  method CalculateBiasScore(bs: seq<BiasAnalysis>, now: Millis) returns (score: real)
    ensures score == BiasScore(bs, now)
  {
    if |bs| == 0 {
      return 100.0;
    }
    var totalScore := 100.0;
    for i := 0 to |bs|
      invariant totalScore == 100.0 - TotalPenalty(bs[..i], now)
    {
      var recencyWeight := Max(0.1, 1.0 - DaysSince(now, bs[i].detectedAt) / 30.0);
      var severityPenalty := if bs[i].severity == High then 15.0 else if bs[i].severity == Medium then 10.0 else 5.0;
      totalScore := totalScore - severityPenalty * recencyWeight;
      assert bs[..i + 1][..i] == bs[..i];
    }
    assert bs[..|bs|] == bs;
    score := Max(0.0, Min(100.0, totalScore));
  }

  lemma PenaltyAtLeastHalf(b: BiasAnalysis, now: Millis)
    ensures BiasPenalty(b, now) >= 0.5
  {
    var w := RecencyWeight(now, b.detectedAt);
    match b.severity
    case High => assert 15.0 * w >= 1.5;
    case Medium => assert 10.0 * w >= 1.0;
    case Low => assert 5.0 * w >= 0.5;
  }

  lemma {:induction false} TotalPenaltyAtLeast(bs: seq<BiasAnalysis>, now: Millis)
    ensures TotalPenalty(bs, now) >= 0.5 * |bs| as real
  {
    if bs != [] {
      TotalPenaltyAtLeast(bs[..|bs| - 1], now);
      PenaltyAtLeastHalf(bs[|bs| - 1], now);
    }
  }

  /** Every detected bias costs at least half a point, however old it is. */
  lemma AnyBiasLowersScore(bs: seq<BiasAnalysis>, now: Millis)
    requires bs != []
    ensures BiasScore(bs, now) < 100.0
  {
    TotalPenaltyAtLeast(bs, now);
  }

  lemma HarsherPenalty(s: Severity, s': Severity, w: real)
    requires SeverityRank(s) <= SeverityRank(s') && w >= 0.0
    ensures SeverityPenalty(s) * w <= SeverityPenalty(s') * w
  {
  }

  /** Raising the severity of findings of the same ages never lowers the total penalty. */
  lemma {:induction false} HarsherTotalPenalty(bs: seq<BiasAnalysis>, bs': seq<BiasAnalysis>, now: Millis)
    requires |bs| == |bs'|
    requires forall i :: 0 <= i < |bs| ==> bs[i].detectedAt == bs'[i].detectedAt
    requires forall i :: 0 <= i < |bs| ==> SeverityRank(bs[i].severity) <= SeverityRank(bs'[i].severity)
    ensures TotalPenalty(bs, now) <= TotalPenalty(bs', now)
  {
    if bs != [] {
      var n := |bs| - 1;
      var init, init' := bs[..n], bs'[..n];
      assert forall i :: 0 <= i < n ==> init[i] == bs[i] && init'[i] == bs'[i];
      HarsherTotalPenalty(init, init', now);
      HarsherPenalty(bs[n].severity, bs'[n].severity, RecencyWeight(now, bs[n].detectedAt));
      assert BiasPenalty(bs[n], now) <= BiasPenalty(bs'[n], now);
      assert TotalPenalty(bs, now) == TotalPenalty(init, now) + BiasPenalty(bs[n], now);
      assert TotalPenalty(bs', now) == TotalPenalty(init', now) + BiasPenalty(bs'[n], now);
    }
  }

  /** Raising the severity of findings, all else equal, never raises the bias score. */
  lemma HarsherBiasesScoreLower(bs: seq<BiasAnalysis>, bs': seq<BiasAnalysis>, now: Millis)
    requires |bs| == |bs'|
    requires forall i :: 0 <= i < |bs| ==> bs[i].detectedAt == bs'[i].detectedAt
    requires forall i :: 0 <= i < |bs| ==> SeverityRank(bs[i].severity) <= SeverityRank(bs'[i].severity)
    ensures TotalPenalty(bs, now) <= TotalPenalty(bs', now)
    ensures BiasScore(bs', now) <= BiasScore(bs, now)
  {
    HarsherTotalPenalty(bs, bs', now);
  }

  /** Three high-severity biases detected just now: 100 − 3 × 15 × 1 = 55. */
  lemma ThreeFreshHighBiasesScore55(bs: seq<BiasAnalysis>, now: Millis)
    requires |bs| == 3
    requires forall i :: 0 <= i < 3 ==> bs[i].severity == High && bs[i].detectedAt == now
    ensures BiasScore(bs, now) == 55.0
  {
    assert RecencyWeight(now, now) == 1.0;
    assert bs[..1][..0] == [];
    assert TotalPenalty(bs[..1], now) == 15.0;
    assert bs[..2][..1] == bs[..1];
    assert TotalPenalty(bs[..2], now) == 30.0;
    assert bs[..3] == bs;
    assert bs[..3][..2] == bs[..2];
    assert TotalPenalty(bs, now) == 45.0;
  }

  // ------------------------------------------------------------------
  // Signal score and missed opportunities
  // ------------------------------------------------------------------

  /** The positions of the signals strictly younger than seven days. */
  ghost function RecentSignalIndices(ss: seq<AlphaSignal>, now: Millis): set<int> {
    set i | 0 <= i < |ss| && WithinLastWeek(now, ss[i].timestamp)
  }

  /** Looking at one more signal adds its position exactly when it is younger than seven days. */
  lemma RecentSignalIndicesSnoc(ss: seq<AlphaSignal>, now: Millis)
    requires ss != []
    ensures var n := |ss| - 1;
      |RecentSignalIndices(ss, now)| ==
      |RecentSignalIndices(ss[..n], now)| + (if WithinLastWeek(now, ss[n].timestamp) then 1 else 0)
  {
    var n := |ss| - 1;
    var init := RecentSignalIndices(ss[..n], now);
    var last: set<int> := if WithinLastWeek(now, ss[n].timestamp) then {n} else {};
    assert RecentSignalIndices(ss, now) == init + last;
    assert n !in init;
  }

  /** The signals strictly younger than seven days, in their original order: all of them and nothing else. */
  function RecentSignals(ss: seq<AlphaSignal>, now: Millis): (r: seq<AlphaSignal>)
    ensures |r| == |RecentSignalIndices(ss, now)| <= |ss|
    ensures forall s :: s in r ==> s in ss && WithinLastWeek(now, s.timestamp)
    ensures forall i :: 0 <= i < |ss| && WithinLastWeek(now, ss[i].timestamp) ==> ss[i] in r
  {
    if ss == [] then
      assert RecentSignalIndices(ss, now) == {};
      []
    else
      var n := |ss| - 1;
      var last := ss[n];
      var init := RecentSignals(ss[..n], now);
      RecentSignalIndicesSnoc(ss, now);
      assert forall i :: 0 <= i < n ==> ss[..n][i] == ss[i];
      init + (if WithinLastWeek(now, last.timestamp) then [last] else [])
  }

  /** `Σ confidence × 100` */
  function ConfidenceSum(ss: seq<AlphaSignal>): real {
    if ss == [] then 0.0 else ConfidenceSum(ss[..|ss| - 1]) + ss[|ss| - 1].confidence * 100.0
  }

  /** The signal sub-score: neutral 50 without recent signals, else the capped mean confidence. */
  function SignalScore(ss: seq<AlphaSignal>, now: Millis): (s: real)
    ensures RecentSignals(ss, now) == [] ==> s == 50.0
    ensures s <= 100.0
    ensures RecentSignals(ss, now) != [] ==>
      s <= ConfidenceSum(RecentSignals(ss, now)) / |RecentSignals(ss, now)| as real
  {
    if ss == [] then 50.0
    else
      var recent := RecentSignals(ss, now);
      if recent == [] then 50.0 else Min(100.0, ConfidenceSum(recent) / |recent| as real)
  }

  method CalculateSignalScore(ss: seq<AlphaSignal>, now: Millis) returns (score: real)
    ensures score == SignalScore(ss, now)
  {
    if |ss| == 0 {
      return 50.0;
    }
    var recentSignals := RecentSignals(ss, now);
    if |recentSignals| == 0 {
      return 50.0;
    }
    var totalScore := 0.0;
    for i := 0 to |recentSignals|
      invariant totalScore == ConfidenceSum(recentSignals[..i])
    {
      totalScore := totalScore + recentSignals[i].confidence * 100.0;
      assert recentSignals[..i + 1][..i] == recentSignals[..i];
    }
    assert recentSignals[..|recentSignals|] == recentSignals;
    score := Min(100.0, totalScore / |recentSignals| as real);
  }

  /** One more signal is kept at the end exactly when it is recent. */
  lemma RecentSignalsSnoc(ss: seq<AlphaSignal>, s: AlphaSignal, now: Millis)
    ensures RecentSignals(ss + [s], now) == RecentSignals(ss, now) + (if WithinLastWeek(now, s.timestamp) then [s] else [])
  {
    assert (ss + [s])[..|ss|] == ss;
  }

  lemma {:induction false} RecentSignalsAppend(a: seq<AlphaSignal>, b: seq<AlphaSignal>, now: Millis)
    ensures RecentSignals(a + b, now) == RecentSignals(a, now) + RecentSignals(b, now)
  {
    if b == [] {
      assert a + b == a;
    } else {
      var n := |b| - 1;
      var init, last := b[..n], b[n];
      var keep := if WithinLastWeek(now, last.timestamp) then [last] else [];
      assert a + b == (a + init) + [last];
      assert b == init + [last];
      calc {
        RecentSignals(a + b, now);
        { RecentSignalsSnoc(a + init, last, now); }
        RecentSignals(a + init, now) + keep;
        { RecentSignalsAppend(a, init, now); }
        RecentSignals(a, now) + RecentSignals(init, now) + keep;
        { RecentSignalsSnoc(init, last, now); }
        RecentSignals(a, now) + RecentSignals(b, now);
      }
    }
  }

  lemma {:induction false} NoRecentSignals(b: seq<AlphaSignal>, now: Millis)
    requires forall s :: s in b ==> !WithinLastWeek(now, s.timestamp)
    ensures RecentSignals(b, now) == []
  {
    if b != [] {
      assert b[|b| - 1] in b;
      assert forall s :: s in b[..|b| - 1] ==> s in b;
      NoRecentSignals(b[..|b| - 1], now);
    }
  }

  /** Signals a week old or older do not move the signal score. */
  lemma StaleSignalsIgnored(ss: seq<AlphaSignal>, stale: seq<AlphaSignal>, now: Millis)
    requires forall s :: s in stale ==> !WithinLastWeek(now, s.timestamp)
    ensures SignalScore(ss + stale, now) == SignalScore(ss, now)
  {
    RecentSignalsAppend(ss, stale, now);
    NoRecentSignals(stale, now);
    assert RecentSignals(ss + stale, now) == RecentSignals(ss, now);
  }

  lemma {:induction false} ConfidenceSumBounds(ss: seq<AlphaSignal>)
    requires AllValidSignals(ss)
    ensures 0.0 <= ConfidenceSum(ss) <= 100.0 * |ss| as real
  {
    if ss != [] {
      assert ss[|ss| - 1] in ss;
      assert forall s :: s in ss[..|ss| - 1] ==> s in ss;
      ConfidenceSumBounds(ss[..|ss| - 1]);
    }
  }

  lemma MeanBounds(total: real, n: real)
    requires n > 0.0 && 0.0 <= total <= 100.0 * n
    ensures 0.0 <= total / n <= 100.0
  {
    var m := total / n;
    assert m * n == total;
  }

  /**
   * With confidences in [0, 1] the signal score is the plain mean of
   * `confidence × 100` over the recent signals: the cap at 100 never bites.
   */
  lemma {:induction false} SignalScoreIsMeanConfidence(ss: seq<AlphaSignal>, now: Millis)
    requires AllValidSignals(ss)
    ensures 0.0 <= SignalScore(ss, now) <= 100.0
    ensures RecentSignals(ss, now) != [] ==>
      SignalScore(ss, now) == ConfidenceSum(RecentSignals(ss, now)) / |RecentSignals(ss, now)| as real
  {
    var recent := RecentSignals(ss, now);
    if ss != [] && recent != [] {
      ConfidenceSumBounds(recent);
      MeanBounds(ConfidenceSum(recent), |recent| as real);
    }
  }

  /** The positions of the signals whose confidence is above 0.8. */
  ghost function HighConfidenceIndices(ss: seq<AlphaSignal>): set<int> {
    set i | 0 <= i < |ss| && ss[i].confidence > 0.8
  }

  /** Looking at one more signal adds its position exactly when its confidence is above 0.8. */
  lemma HighConfidenceIndicesSnoc(ss: seq<AlphaSignal>)
    requires ss != []
    ensures var n := |ss| - 1;
      |HighConfidenceIndices(ss)| == |HighConfidenceIndices(ss[..n])| + (if ss[n].confidence > 0.8 then 1 else 0)
  {
    var n := |ss| - 1;
    var init := HighConfidenceIndices(ss[..n]);
    var last: set<int> := if ss[n].confidence > 0.8 then {n} else {};
    assert HighConfidenceIndices(ss) == init + last;
    assert n !in init;
  }

  /** `signals.filter(s => s.confidence > 0.8).length`, over all fetched signals. */
  function HighConfidenceCount(ss: seq<AlphaSignal>): (n: nat)
    ensures n == |HighConfidenceIndices(ss)|
    ensures n <= |ss|
  {
    if ss == [] then
      assert HighConfidenceIndices(ss) == {};
      0
    else
      HighConfidenceIndicesSnoc(ss);
      HighConfidenceCount(ss[..|ss| - 1]) + (if ss[|ss| - 1].confidence > 0.8 then 1 else 0)
  }

  /** Counting high-confidence signals ignores their age: it adds up over any split. */
  lemma {:induction false} HighConfidenceCountAppend(a: seq<AlphaSignal>, b: seq<AlphaSignal>)
    ensures HighConfidenceCount(a + b) == HighConfidenceCount(a) + HighConfidenceCount(b)
  {
    if b == [] {
      assert a + b == a;
    } else {
      assert (a + b)[..|a + b| - 1] == a + b[..|b| - 1];
      HighConfidenceCountAppend(a, b[..|b| - 1]);
    }
  }

  // ------------------------------------------------------------------
  // Composition
  // ------------------------------------------------------------------

  /** What the three store reads returned; `None` is a read that threw. */
  datatype ScoreInputs = ScoreInputs(
    portfolio: Option<seq<Holding>>,
    biasRows: Option<seq<BiasAnalysis>>,
    signalRows: Option<seq<AlphaSignal>>)

  /** `getBiasAnalyses`: the newest 50 rows, or none when the read throws. */
  function FetchedBiases(rows: Option<seq<BiasAnalysis>>): (r: seq<BiasAnalysis>)
    ensures |r| <= BiasFetchLimit
    ensures rows.None? ==> r == []
    ensures rows.Some? ==> r == rows.value[..if |rows.value| < BiasFetchLimit then |rows.value| else BiasFetchLimit]
  {
    match rows
    case None => []
    case Some(xs) => Take(xs, BiasFetchLimit)
  }

  /** `getAlphaSignals`: the newest 100 rows, or none when the read throws. */
  function FetchedSignals(rows: Option<seq<AlphaSignal>>): (r: seq<AlphaSignal>)
    ensures |r| <= SignalFetchLimit
    ensures forall s :: s in r ==> rows.Some? && s in rows.value
    ensures rows.None? ==> r == []
    ensures rows.Some? ==> r == rows.value[..if |rows.value| < SignalFetchLimit then |rows.value| else SignalFetchLimit]
  {
    match rows
    case None => []
    case Some(xs) => Take(xs, SignalFetchLimit)
  }

  function BaseScore(portfolioScore: real, biasScore: real, signalScore: real): real {
    (portfolioScore + biasScore + signalScore) / 3.0
  }

  /** Two per cent more per bias folded in. */
  function ImprovementFactor(biasCount: nat): (f: real)
    ensures f >= 1.0
  {
    1.0 + biasCount as real * 0.02
  }

  /** `Math.min(100, baseScore * improvementFactor)` */
  function FinalScore(base: real, biasCount: nat): (f: real)
    ensures f <= 100.0 && f <= base * ImprovementFactor(biasCount)
    ensures f == 100.0 || f == base * ImprovementFactor(biasCount)
  {
    Min(100.0, base * ImprovementFactor(biasCount))
  }

  /** The final score is the scaled base score, capped at 100. */
  lemma FinalScoreIsCappedScale(base: real, biasCount: nat)
    ensures var f := FinalScore(base, biasCount); var scaled := base * ImprovementFactor(biasCount);
      f <= 100.0 && f <= scaled && (f == 100.0 || f == scaled)
      && (scaled <= 100.0 ==> f == scaled) && (scaled >= 100.0 ==> f == 100.0)
  {
  }

  /** The average of the three sub-scores of a user's inputs. */
  function InputsBaseScore(inputs: ScoreInputs, now: Millis): real {
    BaseScore(PortfolioScore(inputs.portfolio.GetOr([])),
              BiasScore(FetchedBiases(inputs.biasRows), now),
              SignalScore(FetchedSignals(inputs.signalRows), now))
  }

  /** The score `calculateAlphaScore` computes on a cache miss. */
  function ComposeScore(userId: string, inputs: ScoreInputs, now: Millis): (r: AlphaScore)
    ensures r.userId == userId && r.period == "30d" && r.calculatedAt == now
    ensures r.biasesCorrected == |FetchedBiases(inputs.biasRows)| <= BiasFetchLimit
    ensures r.opportunitiesMissed == HighConfidenceCount(FetchedSignals(inputs.signalRows)) <= SignalFetchLimit
    ensures var base := InputsBaseScore(inputs, now); var final := FinalScore(base, r.biasesCorrected);
      r.score == Round2(final) && r.improvement == Round2(final - base)
  {
    var holdings := inputs.portfolio.GetOr([]);
    var biases := FetchedBiases(inputs.biasRows);
    var signals := FetchedSignals(inputs.signalRows);
    var base := BaseScore(PortfolioScore(holdings), BiasScore(biases, now), SignalScore(signals, now));
    var final := FinalScore(base, |biases|);
    AlphaScore(userId, Round2(final), Round2(final - base), "30d", |biases|, HighConfidenceCount(signals), now)
  }


  /** The score half of `ComposedScoreFormula`: the cap decides between the scaled base and 100. */
  lemma ComposedScoreCapped(userId: string, inputs: ScoreInputs, now: Millis)
    ensures var r := ComposeScore(userId, inputs, now);
      var base := InputsBaseScore(inputs, now);
      var scaled := base * ImprovementFactor(|FetchedBiases(inputs.biasRows)|);
      (scaled <= 100.0 ==> r.score == Round2(scaled) && r.improvement == Round2(scaled - base))
      && (scaled >= 100.0 ==> r.score == 100.0 && r.improvement == Round2(100.0 - base))
  {
    var r := ComposeScore(userId, inputs, now);
    var base := InputsBaseScore(inputs, now);
    var n := |FetchedBiases(inputs.biasRows)|;
    var scaled := base * ImprovementFactor(n);
    var final := FinalScore(base, n);
    assert r.score == Round2(final) && r.improvement == Round2(final - base);
    FinalScoreIsCappedScale(base, n);
    if scaled <= 100.0 {
      assert final == scaled;
    }
    if scaled >= 100.0 {
      assert final == 100.0;
      Round2Bounds(100.0);
    }
  }

  /**
   * The composed score is the rounded average of the three sub-scores, scaled
   * up by two per cent per fetched bias and capped at 100; the improvement is
   * the rounded gain of that scaling.
   */
  lemma ComposedScoreFormula(userId: string, inputs: ScoreInputs, now: Millis)
    ensures var r := ComposeScore(userId, inputs, now);
      var base := InputsBaseScore(inputs, now);
      var scaled := base * ImprovementFactor(|FetchedBiases(inputs.biasRows)|);
      (scaled <= 100.0 ==> r.score == Round2(scaled) && r.improvement == Round2(scaled - base))
      && (scaled >= 100.0 ==> r.score == 100.0 && r.improvement == Round2(100.0 - base))
      && r.opportunitiesMissed == |set i | 0 <= i < |FetchedSignals(inputs.signalRows)|
                                          && FetchedSignals(inputs.signalRows)[i].confidence > 0.8|
  {
    ComposedScoreCapped(userId, inputs, now);
    assert ComposeScore(userId, inputs, now).opportunitiesMissed
        == |HighConfidenceIndices(FetchedSignals(inputs.signalRows))|;
  }

  lemma ScaledAtLeast(base: real, factor: real)
    requires base >= 0.0 && factor >= 1.0
    ensures base * factor >= base
  {
    assert base * factor - base == base * (factor - 1.0);
    assert base * (factor - 1.0) >= 0.0;
  }

  /**
   * Whenever the stored confidences lie in [0, 1], the reported score lies in
   * [0, 100] and the reported improvement is never negative.
   */
  lemma ComposedScoreInRange(userId: string, inputs: ScoreInputs, now: Millis)
    requires inputs.signalRows.Some? ==> AllValidSignals(inputs.signalRows.value)
    ensures 0.0 <= ComposeScore(userId, inputs, now).score <= 100.0
    ensures ComposeScore(userId, inputs, now).improvement >= 0.0
  {
    var holdings := inputs.portfolio.GetOr([]);
    var biases := FetchedBiases(inputs.biasRows);
    var signals := FetchedSignals(inputs.signalRows);
    SignalScoreIsMeanConfidence(signals, now);
    var base := BaseScore(PortfolioScore(holdings), BiasScore(biases, now), SignalScore(signals, now));
    FinalScoreBounds(base, |biases|);
    RoundedScoreBounds(base, FinalScore(base, |biases|));
  }

  lemma FinalScoreBounds(base: real, biasCount: nat)
    requires 0.0 <= base <= 100.0
    ensures base <= FinalScore(base, biasCount) <= 100.0
  {
    ScaledAtLeast(base, ImprovementFactor(biasCount));
  }

  lemma RoundedScoreBounds(base: real, final: real)
    requires 0.0 <= base <= final <= 100.0
    ensures 0.0 <= Round2(final) <= 100.0
    ensures Round2(final - base) >= 0.0
  {
    Round2Monotone(0.0, final);
    Round2Monotone(final, 100.0);
    Round2Monotone(0.0, final - base);
    Round2Bounds(0.0);
  }

  /** No portfolio, no biases, no signals: (50 + 100 + 50) / 3 rounded, and no improvement. */
  lemma NewUserScores6667(userId: string, now: Millis)
    ensures ComposeScore(userId, ScoreInputs(None, None, None), now).score == 66.67
    ensures ComposeScore(userId, ScoreInputs(None, None, None), now).improvement == 0.0
    ensures ComposeScore(userId, ScoreInputs(None, None, None), now).opportunitiesMissed == 0
  {
    var base := BaseScore(50.0, 100.0, 50.0);
    assert FinalScore(base, 0) == base;
    assert (base * 100.0 + 0.5).Floor == 6667;
    assert (0.0 * 100.0 + 0.5).Floor == 0;
  }

  // ------------------------------------------------------------------
  // Read-through cache
  // ------------------------------------------------------------------

  datatype CachedScore = CachedScore(score: AlphaScore, expiresAt: Millis)

  function ScoreKey(userId: string): string {
    "alpha_score:" + userId
  }

  /** The cache in front of `calculateAlphaScore`, keyed `alpha_score:<userId>`. */
  class ScoreCache {
    var entries: map<string, CachedScore>

    constructor ()
      ensures entries == map[]
    {
      entries := map[];
    }

    /** The live entry under `key` at time `now`, if any. */
    function Lookup(key: string, now: Millis): Option<AlphaScore>
      reads this
    {
      if key in entries && now < entries[key].expiresAt then Some(entries[key].score) else None
    }

    /**
     * A hit returns the stored score untouched; a miss (or a cache read that
     * throws) computes the score and writes it for one hour. A cache write
     * that throws fails the whole computation.
     */
    method CalculateAlphaScore(userId: string, inputs: ScoreInputs, now: Millis, readOk: bool, writeOk: bool)
      returns (r: Result<AlphaScore, string>)
      modifies this
      ensures readOk && old(Lookup(ScoreKey(userId), now)).Some? ==>
        r == Success(old(Lookup(ScoreKey(userId), now)).value) && entries == old(entries)
      ensures !(readOk && old(Lookup(ScoreKey(userId), now)).Some?) && writeOk ==>
        r == Success(ComposeScore(userId, inputs, now)) &&
        entries == old(entries)[ScoreKey(userId) := CachedScore(ComposeScore(userId, inputs, now), now + ScoreTtlSeconds * 1000)]
      ensures !(readOk && old(Lookup(ScoreKey(userId), now)).Some?) && !writeOk ==>
        r == Failure("Failed to calculate alpha score") && entries == old(entries)
    {
      var cacheKey := ScoreKey(userId);
      if readOk {
        var cached := Lookup(cacheKey, now);
        if cached.Some? {
          return Success(cached.value);
        }
      }
      var alphaScore := ComposeScore(userId, inputs, now);
      if !writeOk {
        return Failure("Failed to calculate alpha score");
      }
      entries := entries[cacheKey := CachedScore(alphaScore, now + ScoreTtlSeconds * 1000)];
      r := Success(alphaScore);
    }
  }

  // ------------------------------------------------------------------
  // Bias detection pipeline
  // ------------------------------------------------------------------

  /** What one detector call gave: its `detected` flag, or an exception. */
  datatype DetectorOutcome = Reported(detected: bool) | Threw

  datatype Detector = Detector(biasType: string, severity: Severity, description: string, recommendation: string)

  /** The five detectors, in the order the pipeline runs them. */
  const Detectors: seq<Detector> := [
    Detector("Loss Aversion", Medium,
      "Tendency to hold losing positions too long hoping for recovery",
      "Consider setting stop-loss orders and taking small losses regularly"),
    Detector("Confirmation Bias", High,
      "Seeking information that confirms existing beliefs",
      "Actively seek contrarian viewpoints and challenge your assumptions"),
    Detector("Overconfidence Bias", Medium,
      "Excessive confidence in trading abilities",
      "Keep detailed trading records and regularly review performance objectively"),
    Detector("Anchoring Bias", Low,
      "Relying too heavily on the first piece of information",
      "Use multiple data points and regularly update your reference points"),
    Detector("Herding Bias", Medium,
      "Following market trends without independent analysis",
      "Conduct your own research before following market trends")
  ]

  /** Position of a bias type in the detector list (5 when it is none of them). */
  function DetectorIndex(biasType: string): (k: nat)
    ensures k <= 5
    ensures k < 5 ==> Detectors[k].biasType == biasType
  {
    if biasType == Detectors[0].biasType then 0
    else if biasType == Detectors[1].biasType then 1
    else if biasType == Detectors[2].biasType then 2
    else if biasType == Detectors[3].biasType then 3
    else if biasType == Detectors[4].biasType then 4
    else 5
  }

  /** The five bias types are pairwise distinct, so each finding names exactly one detector. */
  lemma DetectorIndexOf(k: nat)
    requires k < |Detectors|
    ensures DetectorIndex(Detectors[k].biasType) == k
  {
  }

  function Finding(userId: string, d: Detector, idSuffix: string, now: Millis): BiasAnalysis {
    BiasAnalysis("bias_" + NatToString(now) + "_" + idSuffix, userId, d.biasType, d.severity, d.description, d.recommendation, now)
  }

  /** The findings of the first `n` detectors. */
  function DetectionsUpTo(userId: string, outcomes: seq<DetectorOutcome>, idSuffixes: seq<string>, now: Millis, n: nat)
    : (r: seq<BiasAnalysis>)
    requires n <= |Detectors| && |outcomes| == |Detectors| && |idSuffixes| == |Detectors|
    ensures |r| <= n
    ensures forall b :: b in r ==> b.userId == userId && b.detectedAt == now && DetectorIndex(b.biasType) < n
  {
    if n == 0 then []
    else
      DetectionsUpTo(userId, outcomes, idSuffixes, now, n - 1) +
      (if outcomes[n - 1] == Reported(true) then [Finding(userId, Detectors[n - 1], idSuffixes[n - 1], now)] else [])
  }

  /** `detectBiases`' findings: one per detector that ran and reported a bias, stamped with the caller and now. */
  function Detections(userId: string, outcomes: seq<DetectorOutcome>, idSuffixes: seq<string>, now: Millis)
    : (r: seq<BiasAnalysis>)
    requires |outcomes| == |Detectors| && |idSuffixes| == |Detectors|
    ensures |r| <= |Detectors|
    ensures forall b :: b in r ==> b.userId == userId && b.detectedAt == now
    ensures forall k :: 0 <= k < |Detectors| ==> (Detectors[k].biasType in BiasTypes(r) <==> outcomes[k] == Reported(true))
  {
    DetectedIffReportedAll(userId, outcomes, idSuffixes, now);
    DetectionsUpTo(userId, outcomes, idSuffixes, now, |Detectors|)
  }

  lemma DetectedIffReportedAll(userId: string, outcomes: seq<DetectorOutcome>, idSuffixes: seq<string>, now: Millis)
    requires |outcomes| == |Detectors| && |idSuffixes| == |Detectors|
    ensures forall k :: 0 <= k < |Detectors| ==>
      (Detectors[k].biasType in BiasTypes(DetectionsUpTo(userId, outcomes, idSuffixes, now, |Detectors|))
       <==> outcomes[k] == Reported(true))
  {
    forall k | 0 <= k < |Detectors|
      ensures Detectors[k].biasType in BiasTypes(DetectionsUpTo(userId, outcomes, idSuffixes, now, |Detectors|))
              <==> outcomes[k] == Reported(true)
    {
      DetectedIffReported(userId, outcomes, idSuffixes, now, |Detectors|, k);
    }
  }

  /** The detector loop of `detectBiases`: run all five, keep the reported ones, skip the ones that threw. */
  method RunDetectors(userId: string, outcomes: seq<DetectorOutcome>, idSuffixes: seq<string>, now: Millis)
    returns (biases: seq<BiasAnalysis>)
    requires |outcomes| == |Detectors| && |idSuffixes| == |Detectors|
    ensures biases == Detections(userId, outcomes, idSuffixes, now)
  {
    biases := [];
    for i := 0 to |Detectors|
      invariant biases == DetectionsUpTo(userId, outcomes, idSuffixes, now, i)
    {
      match outcomes[i]
      case Threw =>
      case Reported(detected) =>
        if detected {
          biases := biases + [Finding(userId, Detectors[i], idSuffixes[i], now)];
        }
    }
  }

  /** The bias types named by a list of findings. */
  function BiasTypes(bs: seq<BiasAnalysis>): set<string> {
    set b | b in bs :: b.biasType
  }

  lemma BiasTypesAppend(bs: seq<BiasAnalysis>, extra: seq<BiasAnalysis>)
    ensures BiasTypes(bs + extra) == BiasTypes(bs) + BiasTypes(extra)
  {
    assert forall b :: b in bs + extra <==> b in bs || b in extra;
  }

  /**
   * A detector's bias type appears among the findings exactly when that
   * detector ran without throwing and reported `detected = true`.
   */
  lemma {:induction false} DetectedIffReported(userId: string, outcomes: seq<DetectorOutcome>, idSuffixes: seq<string>,
                                               now: Millis, n: nat, k: nat)
    requires n <= |Detectors| && |outcomes| == |Detectors| && |idSuffixes| == |Detectors|
    requires k < n
    ensures Detectors[k].biasType in BiasTypes(DetectionsUpTo(userId, outcomes, idSuffixes, now, n))
            <==> outcomes[k] == Reported(true)
  {
    var prev := DetectionsUpTo(userId, outcomes, idSuffixes, now, n - 1);
    var last := if outcomes[n - 1] == Reported(true) then [Finding(userId, Detectors[n - 1], idSuffixes[n - 1], now)] else [];
    BiasTypesAppend(prev, last);
    DetectorIndexOf(k);
    DetectorIndexOf(n - 1);
    if k < n - 1 {
      DetectedIffReported(userId, outcomes, idSuffixes, now, n - 1, k);
      assert Detectors[k].biasType !in BiasTypes(last);
    } else {
      if outcomes[k] == Reported(true) {
        assert last[0] in last;
      }
    }
  }

  /** Findings come out in the fixed detector order. */
  lemma {:induction false} DetectionsInDetectorOrder(userId: string, outcomes: seq<DetectorOutcome>, idSuffixes: seq<string>,
                                                     now: Millis, n: nat)
    requires n <= |Detectors| && |outcomes| == |Detectors| && |idSuffixes| == |Detectors|
    ensures forall j1, j2 :: 0 <= j1 < j2 < |DetectionsUpTo(userId, outcomes, idSuffixes, now, n)| ==>
      DetectorIndex(DetectionsUpTo(userId, outcomes, idSuffixes, now, n)[j1].biasType) <
      DetectorIndex(DetectionsUpTo(userId, outcomes, idSuffixes, now, n)[j2].biasType)
  {
    if n > 0 {
      DetectionsInDetectorOrder(userId, outcomes, idSuffixes, now, n - 1);
      var prev := DetectionsUpTo(userId, outcomes, idSuffixes, now, n - 1);
      var r := DetectionsUpTo(userId, outcomes, idSuffixes, now, n);
      DetectorIndexOf(n - 1);
      forall j1, j2 | 0 <= j1 < j2 < |r|
        ensures DetectorIndex(r[j1].biasType) < DetectorIndex(r[j2].biasType)
      {
        assert r[j1] == prev[j1] && prev[j1] in prev;
        if j2 < |prev| {
          assert r[j2] == prev[j2];
        }
      }
    }
  }

  /** The number of detectors that reported `detected = true`. */
  function ReportedCount(outcomes: seq<DetectorOutcome>, n: nat): nat
    requires n <= |outcomes|
  {
    if n == 0 then 0 else ReportedCount(outcomes, n - 1) + (if outcomes[n - 1] == Reported(true) then 1 else 0)
  }

  lemma {:induction false} DetectionCount(userId: string, outcomes: seq<DetectorOutcome>, idSuffixes: seq<string>,
                                          now: Millis, n: nat)
    requires n <= |Detectors| && |outcomes| == |Detectors| && |idSuffixes| == |Detectors|
    ensures |DetectionsUpTo(userId, outcomes, idSuffixes, now, n)| == ReportedCount(outcomes, n)
  {
    if n > 0 {
      DetectionCount(userId, outcomes, idSuffixes, now, n - 1);
    }
  }

  // ------------------------------------------------------------------
  // Signal generation
  // ------------------------------------------------------------------

  /** The `Math.random()` draws one call of `generateSignalForAsset` makes, in source order. */
  datatype SignalDraw = SignalDraw(
    idSuffix: string,
    direction: Unit,
    confidence: Unit,
    horizon: Unit,
    insightDirection: Unit,
    sources: Unit,
    category: Unit)

  /** One holding's generation attempt: a signal, or a call that threw. */
  datatype GenerationOutcome = Generated(draw: SignalDraw) | GenerationFailed

  const Directions: seq<Direction> := [Bullish, Bearish, Neutral]

  const Horizons: seq<TimeHorizon> := [ShortTerm, MediumTerm, LongTerm]

  const Categories: seq<string> := ["technical", "fundamental", "sentiment", "options"]

  /** `Math.floor(Math.random() * 3)` */
  function Index3(u: Unit): (k: nat)
    ensures k < 3
  {
    (u * 3.0).Floor
  }

  /** `Math.floor(Math.random() * 4)` */
  function Index4(u: Unit): (k: nat)
    ensures k < 4
  {
    (u * 4.0).Floor
  }

  /**
   * `generateSignalForAsset` as written: the owner is left empty
   * ("set by caller"), confidence is `0.5 + 0.5 × draw`, sources `10 + ⌊100 × draw⌋`.
   */
  function SignalForAsset(symbol: string, draw: SignalDraw, now: Millis): (s: AlphaSignal)
    ensures s.asset == symbol && s.userId == "" && s.timestamp == now
    ensures 0.5 <= s.confidence < 1.0 && ValidSignal(s)
    ensures 10 <= s.sources <= 109
  {
    AlphaSignal(
      "signal_" + NatToString(now) + "_" + draw.idSuffix,
      "",
      symbol,
      Directions[Index3(draw.direction)],
      draw.confidence * 0.5 + 0.5,
      Horizons[Index3(draw.horizon)],
      "AI analysis suggests " + symbol + " shows " + DirectionName(Directions[Index3(draw.insightDirection)])
        + " momentum based on recent market data.",
      (draw.sources * 100.0).Floor + 10,
      now,
      Categories[Index4(draw.category)])
  }

  /** The signals generated for the first `n` holdings; failed holdings are skipped. */
  function SignalsUpTo(hs: seq<Holding>, outcomes: seq<GenerationOutcome>, now: Millis, n: nat): (r: seq<AlphaSignal>)
    requires n <= |hs| == |outcomes|
    ensures |r| <= n
    ensures forall s :: s in r ==> ValidSignal(s) && s.userId == "" && s.timestamp == now
  {
    if n == 0 then []
    else
      var prev := SignalsUpTo(hs, outcomes, now, n - 1);
      match outcomes[n - 1]
      case GenerationFailed => prev
      case Generated(draw) => prev + [SignalForAsset(hs[n - 1].symbol, draw, now)]
  }

  /** The per-holding loop of `generateAlphaSignals`. */
  method CollectSignals(hs: seq<Holding>, outcomes: seq<GenerationOutcome>, now: Millis) returns (signals: seq<AlphaSignal>)
    requires |hs| == |outcomes|
    ensures signals == SignalsUpTo(hs, outcomes, now, |hs|)
  {
    signals := [];
    for i := 0 to |hs|
      invariant signals == SignalsUpTo(hs, outcomes, now, i)
    {
      match outcomes[i]
      case GenerationFailed =>
      case Generated(draw) =>
        signals := signals + [SignalForAsset(hs[i].symbol, draw, now)];
    }
  }

  /** One signal per holding when no generation fails. */
  lemma {:induction false} SignalPerHolding(hs: seq<Holding>, outcomes: seq<GenerationOutcome>, now: Millis, n: nat)
    requires n <= |hs| == |outcomes|
    requires forall i :: 0 <= i < n ==> outcomes[i].Generated?
    ensures |SignalsUpTo(hs, outcomes, now, n)| == n
    ensures forall i :: 0 <= i < n ==> SignalsUpTo(hs, outcomes, now, n)[i].asset == hs[i].symbol
  {
    if n > 0 {
      SignalPerHolding(hs, outcomes, now, n - 1);
      var prev := SignalsUpTo(hs, outcomes, now, n - 1);
      var r := SignalsUpTo(hs, outcomes, now, n);
      var last := SignalForAsset(hs[n - 1].symbol, outcomes[n - 1].draw, now);
      assert r == prev + [last];
      assert r[n - 1] == last;
      assert forall i :: 0 <= i < n - 1 ==> r[i] == prev[i];
    }
  }

  /** The rows `getAlphaSignals(userId)` selects: `where({ userId })`. */
  function RowsOf(rows: seq<AlphaSignal>, userId: string): (r: seq<AlphaSignal>)
    ensures forall s :: s in r ==> s in rows && s.userId == userId
  {
    if rows == [] then []
    else RowsOf(rows[..|rows| - 1], userId) + (if rows[|rows| - 1].userId == userId then [rows[|rows| - 1]] else [])
  }

  /** One more row is selected exactly when it belongs to the user. */
  lemma RowsOfSnoc(s: seq<AlphaSignal>, w: AlphaSignal, userId: string)
    ensures RowsOf(s + [w], userId) == RowsOf(s, userId) + (if w.userId == userId then [w] else [])
  {
    var t := s + [w];
    assert t[..|t| - 1] == s;
  }

  lemma {:induction false} RowsOfAppend(a: seq<AlphaSignal>, b: seq<AlphaSignal>, userId: string)
    ensures RowsOf(a + b, userId) == RowsOf(a, userId) + RowsOf(b, userId)
  {
    if b == [] {
      assert a + b == a;
    } else {
      var b', w := b[..|b| - 1], b[|b| - 1];
      assert b == b' + [w];
      assert a + b == (a + b') + [w];
      RowsOfAppend(a, b', userId);
      RowsOfSnoc(a + b', w, userId);
      RowsOfSnoc(b', w, userId);
    }
  }

  lemma {:induction false} RowsOfNone(rows: seq<AlphaSignal>, userId: string)
    requires forall s :: s in rows ==> s.userId != userId
    ensures RowsOf(rows, userId) == []
  {
    if rows != [] {
      assert rows[|rows| - 1] in rows;
      assert forall s :: s in rows[..|rows| - 1] ==> s in rows;
      RowsOfNone(rows[..|rows| - 1], userId);
    }
  }

  /**
   * As written, generated signals are stored with an empty owner, so for any
   * real user the signal read behind the score never sees them: the table the
   * user's signals are read from is the same with or without this batch.
   */
  lemma GeneratedSignalsInvisible(table: seq<AlphaSignal>, hs: seq<Holding>, outcomes: seq<GenerationOutcome>,
                                  now: Millis, userId: string)
    requires |hs| == |outcomes| && userId != ""
    ensures RowsOf(table + SignalsUpTo(hs, outcomes, now, |hs|), userId) == RowsOf(table, userId)
  {
    var batch := SignalsUpTo(hs, outcomes, now, |hs|);
    RowsOfAppend(table, batch, userId);
    RowsOfNone(batch, userId);
    assert RowsOf(table, userId) + [] == RowsOf(table, userId);
  }

  /** The owner stamp the caller is meant to apply. */
  function Owned(userId: string, ss: seq<AlphaSignal>): (r: seq<AlphaSignal>)
    ensures |r| == |ss|
    ensures forall i :: 0 <= i < |ss| ==> r[i] == ss[i].(userId := userId)
  {
    if ss == [] then [] else Owned(userId, ss[..|ss| - 1]) + [ss[|ss| - 1].(userId := userId)]
  }

  /** Once stamped, a whole batch is visible to its owner's signal read, in generation order. */
  lemma {:induction false} OwnedSignalsVisible(table: seq<AlphaSignal>, ss: seq<AlphaSignal>, userId: string)
    ensures RowsOf(table + Owned(userId, ss), userId) == RowsOf(table, userId) + Owned(userId, ss)
  {
    RowsOfAppend(table, Owned(userId, ss), userId);
    OwnedRowsOf(ss, userId);
  }

  lemma {:induction false} OwnedRowsOf(ss: seq<AlphaSignal>, userId: string)
    ensures RowsOf(Owned(userId, ss), userId) == Owned(userId, ss)
  {
    if ss != [] {
      var o := Owned(userId, ss);
      assert o[..|o| - 1] == Owned(userId, ss[..|ss| - 1]);
      OwnedRowsOf(ss[..|ss| - 1], userId);
    }
  }

  /** The rows the pipeline inserts: bias findings and generated signals. */
  class AnalysisStore {
    var biasRows: seq<BiasAnalysis>
    var signalRows: seq<AlphaSignal>

    constructor ()
      ensures biasRows == [] && signalRows == []
    {
      biasRows, signalRows := [], [];
    }

    /**
     * `detectBiases`: the findings are inserted only when there is at least
     * one; an insert that throws is swallowed and the findings still returned.
     */
    method DetectBiases(userId: string, outcomes: seq<DetectorOutcome>, idSuffixes: seq<string>, now: Millis, insertOk: bool)
      returns (biases: seq<BiasAnalysis>)
      requires |outcomes| == |Detectors| && |idSuffixes| == |Detectors|
      modifies this
      ensures biases == Detections(userId, outcomes, idSuffixes, now)
      ensures biasRows == if biases != [] && insertOk then old(biasRows) + biases else old(biasRows)
      ensures signalRows == old(signalRows)
    {
      biases := RunDetectors(userId, outcomes, idSuffixes, now);
      if |biases| > 0 && insertOk {
        biasRows := biasRows + biases;
      }
    }

    /**
     * `generateAlphaSignals` as written: the signals are returned and inserted
     * with the empty owner `generateSignalForAsset` gives them, so the user's
     * own signal read does not see the batch (`OwnedSignalsVisible` states
     * what stamping the owner would give). A failed portfolio read yields no
     * holdings.
     */
    method GenerateAlphaSignals(userId: string, portfolio: Option<seq<Holding>>, outcomes: seq<GenerationOutcome>,
                                now: Millis, insertOk: bool)
      returns (signals: seq<AlphaSignal>)
      requires |outcomes| == |portfolio.GetOr([])|
      modifies this
      ensures signals == SignalsUpTo(portfolio.GetOr([]), outcomes, now, |portfolio.GetOr([])|)
      ensures signalRows == if signals != [] && insertOk then old(signalRows) + signals else old(signalRows)
      ensures biasRows == old(biasRows)
      ensures userId != "" ==> RowsOf(signalRows, userId) == RowsOf(old(signalRows), userId)
    {
      var holdings := portfolio.GetOr([]);
      signals := CollectSignals(holdings, outcomes, now);
      if |signals| > 0 && insertOk {
        if userId != "" {
          GeneratedSignalsInvisible(signalRows, holdings, outcomes, now, userId);
        }
        signalRows := signalRows + signals;
      }
    }
  }
}
