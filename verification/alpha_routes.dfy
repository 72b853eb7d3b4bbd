/**
 * The `/insights` route of backend/src/routes/alpha.ts: the threshold rules
 * of `generateRecommendations`, the per-key breakdown counts and the
 * seven-day activity counts.
 */
module AlphaRoutes {
  import opened Wrappers
  import opened Text
  import opened Domain
  import opened AlphaScoreService

  const BelowAverageMessage: string :=
    "Your alpha score is below average. Focus on addressing cognitive biases and following data-driven signals."
  const ExcellentMessage: string :=
    "Excellent alpha score! Continue your current strategy and consider sharing your insights with the community."
  const ReviewSignalsMessage: string :=
    "You have multiple high-confidence signals available. Consider reviewing them for potential action."
  const PraiseMessage: string :=
    "Great improvement! Your bias correction efforts are paying off."
  const DeclineMessage: string :=
    "Your alpha score has declined. Review recent decisions and consider adjusting your strategy."
  const DefaultMessage: string :=
    "Continue monitoring your portfolio and stay alert for potential cognitive biases."

  /** The message carrying the number of high-severity findings. */
  function HighSeverityMessage(n: nat): string {
    "You have " + NatToString(n) + " high-severity biases requiring immediate attention."
  }

  /** The positions of the high-severity findings. */
  ghost function HighSeverityIndices(bs: seq<BiasAnalysis>): set<int> {
    set i | 0 <= i < |bs| && bs[i].severity == High
  }

  /** One more finding adds its position exactly when it is high-severity. */
  lemma HighSeverityIndicesSnoc(bs: seq<BiasAnalysis>)
    requires bs != []
    ensures var n := |bs| - 1;
      |HighSeverityIndices(bs)| == |HighSeverityIndices(bs[..n])| + (if bs[n].severity == High then 1 else 0)
  {
    var n := |bs| - 1;
    var init := HighSeverityIndices(bs[..n]);
    var last: set<int> := if bs[n].severity == High then {n} else {};
    assert HighSeverityIndices(bs) == init + last;
    assert n !in init;
  }

  /** `biases.filter(b => b.severity === 'high').length` */
  function HighSeverityCount(bs: seq<BiasAnalysis>): (n: nat)
    ensures n == |HighSeverityIndices(bs)| <= |bs|
    ensures n == 0 <==> forall i :: 0 <= i < |bs| ==> bs[i].severity != High
  {
    if bs == [] then
      assert HighSeverityIndices(bs) == {};
      0
    else
      var n := HighSeverityCount(bs[..|bs| - 1]);
      HighSeverityIndicesSnoc(bs);
      assert forall i :: 0 <= i < |bs| - 1 ==> bs[..|bs| - 1][i] == bs[i];
      n + (if bs[|bs| - 1].severity == High then 1 else 0)
  }

  /** The score rule: below average under 50, excellent over 80, nothing in between. */
  function ScoreRule(score: real): seq<string> {
    if score < 50.0 then [BelowAverageMessage] else if score > 80.0 then [ExcellentMessage] else []
  }

  function BiasRule(highSeverity: nat): seq<string> {
    if highSeverity > 0 then [HighSeverityMessage(highSeverity)] else []
  }

  function SignalRule(highConfidence: nat): seq<string> {
    if highConfidence > 5 then [ReviewSignalsMessage] else []
  }

  function ImprovementRule(improvement: real): seq<string> {
    if improvement > 5.0 then [PraiseMessage] else if improvement < 0.0 then [DeclineMessage] else []
  }

  /** The messages of the rules that fire, in rule order (score, bias, signal, improvement). */
  function FiredRules(score: real, improvement: real, highSeverity: nat, highConfidence: nat): seq<string> {
    ScoreRule(score) + BiasRule(highSeverity) + SignalRule(highConfidence) + ImprovementRule(improvement)
  }

  /** The recommendation list: the fired rules, or the default message alone. */
  function Recommendations(score: real, improvement: real, highSeverity: nat, highConfidence: nat): (r: seq<string>)
    ensures 1 <= |r| <= 4
    ensures score < 50.0 ==> r[0] == BelowAverageMessage
    ensures score > 80.0 ==> r[0] == ExcellentMessage
  {
    var fired := FiredRules(score, improvement, highSeverity, highConfidence);
    if fired == [] then [DefaultMessage] else fired
  }

  /** `generateRecommendations`, pushing onto the list rule by rule. */
  method GenerateRecommendations(alphaScore: AlphaScore, biases: seq<BiasAnalysis>, signals: seq<AlphaSignal>)
    returns (recommendations: seq<string>)
    ensures recommendations ==
      Recommendations(alphaScore.score, alphaScore.improvement, HighSeverityCount(biases), HighConfidenceCount(signals))
  {
    recommendations := [];
    if alphaScore.score < 50.0 {
      recommendations := recommendations + [BelowAverageMessage];
    } else if alphaScore.score > 80.0 {
      recommendations := recommendations + [ExcellentMessage];
    }
    assert recommendations == ScoreRule(alphaScore.score);
    var highSeverityBiases := HighSeverityCount(biases);
    if highSeverityBiases > 0 {
      recommendations := recommendations + [HighSeverityMessage(highSeverityBiases)];
    }
    assert recommendations == ScoreRule(alphaScore.score) + BiasRule(highSeverityBiases);
    var highConfidenceSignals := HighConfidenceCount(signals);
    if highConfidenceSignals > 5 {
      recommendations := recommendations + [ReviewSignalsMessage];
    }
    assert recommendations == ScoreRule(alphaScore.score) + BiasRule(highSeverityBiases) + SignalRule(highConfidenceSignals);
    if alphaScore.improvement > 5.0 {
      recommendations := recommendations + [PraiseMessage];
    } else if alphaScore.improvement < 0.0 {
      recommendations := recommendations + [DeclineMessage];
    }
    assert recommendations == FiredRules(alphaScore.score, alphaScore.improvement, highSeverityBiases, highConfidenceSignals);
    if |recommendations| == 0 {
      recommendations := recommendations + [DefaultMessage];
    }
  }

  /** The count message never coincides with a fixed message: it ends in "attention.". */
  lemma HighSeverityMessageDistinct(n: nat)
    ensures HighSeverityMessage(n) !in
      {BelowAverageMessage, ExcellentMessage, ReviewSignalsMessage, PraiseMessage, DeclineMessage, DefaultMessage}
  {
    var m := HighSeverityMessage(n);
    var tail := " high-severity biases requiring immediate attention.";
    assert m == ("You have " + NatToString(n)) + tail;
    assert m[|m| - 6] == tail[|tail| - 6] == 'n';
    assert BelowAverageMessage[|BelowAverageMessage| - 6] == 'g';
    assert ExcellentMessage[|ExcellentMessage| - 6] == 'u';
    assert ReviewSignalsMessage[|ReviewSignalsMessage| - 6] == 'c';
    assert PraiseMessage[|PraiseMessage| - 6] == 'g';
    assert DeclineMessage[|DeclineMessage| - 6] == 'a';
    assert DefaultMessage[|DefaultMessage| - 6] == 'i';
  }

  lemma HighSeverityMessageInjective(n: nat, n': nat)
    requires n != n'
    ensures HighSeverityMessage(n) != HighSeverityMessage(n')
  {
    var tail := " high-severity biases requiring immediate attention.";
    if HighSeverityMessage(n) == HighSeverityMessage(n') {
      var m := HighSeverityMessage(n);
      assert m == "You have " + NatToString(n) + tail;
      assert NatToString(n) == m[9..|m| - |tail|];
      assert NatToString(n') == m[9..|m| - |tail|];
      NatToStringInjective(n, n');
    }
  }

  /** There are between one and four recommendations. */
  lemma RecommendationsCount(score: real, improvement: real, highSeverity: nat, highConfidence: nat)
    ensures 1 <= |Recommendations(score, improvement, highSeverity, highConfidence)| <= 4
  {
  }

  /** The default message appears exactly when no rule fires, and then alone. */
  lemma DefaultIffNoRuleFires(score: real, improvement: real, highSeverity: nat, highConfidence: nat)
    ensures var r := Recommendations(score, improvement, highSeverity, highConfidence);
      (DefaultMessage in r <==> 50.0 <= score <= 80.0 && highSeverity == 0 && highConfidence <= 5 && 0.0 <= improvement <= 5.0)
      && (DefaultMessage in r ==> r == [DefaultMessage])
  {
    HighSeverityMessageDistinct(highSeverity);
  }

  /**
   * Below 50 gives the below-average message, above 80 the excellent one;
   * they exclude each other and 50..80 inclusive gives neither.
   */
  lemma ScoreRuleIff(score: real, improvement: real, highSeverity: nat, highConfidence: nat)
    ensures var r := Recommendations(score, improvement, highSeverity, highConfidence);
      (BelowAverageMessage in r <==> score < 50.0)
      && (ExcellentMessage in r <==> score > 80.0)
      && !(BelowAverageMessage in r && ExcellentMessage in r)
      && (BelowAverageMessage in r || ExcellentMessage in r ==> r[0] in {BelowAverageMessage, ExcellentMessage})
  {
    HighSeverityMessageDistinct(highSeverity);
  }

  /** A message with the exact count appears iff some finding is high-severity. */
  lemma HighSeverityRuleIff(score: real, improvement: real, highSeverity: nat, highConfidence: nat)
    ensures var r := Recommendations(score, improvement, highSeverity, highConfidence);
      (HighSeverityMessage(highSeverity) in r <==> highSeverity > 0)
      && (forall n :: 0 < n != highSeverity ==> HighSeverityMessage(n) !in r)
  {
    HighSeverityMessageDistinct(highSeverity);
    forall n | 0 < n != highSeverity
      ensures HighSeverityMessage(n) !in Recommendations(score, improvement, highSeverity, highConfidence)
    {
      HighSeverityMessageDistinct(n);
      HighSeverityMessageInjective(n, highSeverity);
    }
  }

  /** The review message appears iff more than five signals exceed 0.8 confidence. */
  lemma SignalRuleIff(score: real, improvement: real, highSeverity: nat, highConfidence: nat)
    ensures ReviewSignalsMessage in Recommendations(score, improvement, highSeverity, highConfidence) <==> highConfidence > 5
  {
    HighSeverityMessageDistinct(highSeverity);
  }

  /** Improvement above 5 praises, below 0 warns; never both, and the message comes last. */
  lemma ImprovementRuleIff(score: real, improvement: real, highSeverity: nat, highConfidence: nat)
    ensures var r := Recommendations(score, improvement, highSeverity, highConfidence);
      (PraiseMessage in r <==> improvement > 5.0)
      && (DeclineMessage in r <==> improvement < 0.0)
      && !(PraiseMessage in r && DeclineMessage in r)
      && (PraiseMessage in r || DeclineMessage in r ==> r[|r| - 1] in {PraiseMessage, DeclineMessage})
  {
    HighSeverityMessageDistinct(highSeverity);
  }

  /**
   * A score the service composes never has a negative improvement, so the
   * decline warning cannot be shown for it.
   */
  lemma DeclineNeverShownForComposedScore(userId: string, inputs: ScoreInputs, now: Millis,
                                          biases: seq<BiasAnalysis>, signals: seq<AlphaSignal>)
    requires inputs.signalRows.Some? ==> AllValidSignals(inputs.signalRows.value)
    ensures var s := ComposeScore(userId, inputs, now);
      DeclineMessage !in Recommendations(s.score, s.improvement, HighSeverityCount(biases), HighConfidenceCount(signals))
  {
    var s := ComposeScore(userId, inputs, now);
    ComposedScoreInRange(userId, inputs, now);
    ImprovementRuleIff(s.score, s.improvement, HighSeverityCount(biases), HighConfidenceCount(signals));
  }

  // ------------------------------------------------------------------
  // Breakdowns
  // ------------------------------------------------------------------

  /** `keys.reduce((acc, k) => { acc[k] = (acc[k] || 0) + 1; return acc }, {})` */
  function Counts(keys: seq<string>): (m: map<string, nat>)
    ensures forall k :: k in m <==> k in keys
  {
    if keys == [] then map[]
    else
      var acc := Counts(keys[..|keys| - 1]);
      var k := keys[|keys| - 1];
      assert keys == keys[..|keys| - 1] + [k];
      acc[k := (if k in acc then acc[k] else 0) + 1]
  }

  /** Sum of the counts in a breakdown. */
  ghost function Total(m: map<string, nat>): nat
    decreases |m.Keys|
  {
    if m == map[] then 0
    else
      var k :| k in m;
      m[k] + Total(m - {k})
  }

  lemma {:induction false} TotalRemove(m: map<string, nat>, k: string)
    requires k in m
    ensures Total(m) == m[k] + Total(m - {k})
    decreases |m.Keys|
  {
    var j :| j in m && Total(m) == m[j] + Total(m - {j});
    if j != k {
      var m' := m - {j};
      assert |m'.Keys| < |m.Keys| by {
        assert m'.Keys < m.Keys;
      }
      TotalRemove(m', k);
      var m'' := m - {k};
      assert |m''.Keys| < |m.Keys| by {
        assert m''.Keys < m.Keys;
      }
      TotalRemove(m'', j);
      assert m' - {k} == m'' - {j};
    }
  }

  /** The breakdown has a key exactly for each distinct value, counting its occurrences. */
  lemma {:induction false} CountsAreOccurrences(keys: seq<string>)
    ensures forall k :: k in Counts(keys) <==> k in keys
    ensures forall k :: k in Counts(keys) ==> Counts(keys)[k] == multiset(keys)[k]
  {
    if keys != [] {
      var init := keys[..|keys| - 1];
      CountsAreOccurrences(init);
      assert keys == init + [keys[|keys| - 1]];
      assert multiset(keys) == multiset(init) + multiset{keys[|keys| - 1]};
      forall k
        ensures k in Counts(keys) <==> k in keys
      {
        assert k in keys <==> k in init || k == keys[|keys| - 1];
      }
    }
  }

  /** The counts of a breakdown add up to the number of items counted. */
  lemma {:induction false} CountsTotal(keys: seq<string>)
    ensures Total(Counts(keys)) == |keys|
  {
    if keys != [] {
      var init := keys[..|keys| - 1];
      var k := keys[|keys| - 1];
      var acc := Counts(init);
      var m := Counts(keys);
      CountsTotal(init);
      TotalRemove(m, k);
      assert m - {k} == acc - {k};
      if k in acc {
        TotalRemove(acc, k);
      } else {
        assert acc - {k} == acc;
      }
    }
  }

  /** The breakdown loop: `acc[key] = (acc[key] || 0) + 1` for every item. */
  method CountBy(keys: seq<string>) returns (acc: map<string, nat>)
    ensures acc == Counts(keys)
  {
    acc := map[];
    for i := 0 to |keys|
      invariant acc == Counts(keys[..i])
    {
      var key := keys[i];
      assert keys[..i + 1][..i] == keys[..i];
      acc := acc[key := (if key in acc then acc[key] else 0) + 1];
    }
    assert keys[..|keys|] == keys;
  }

  function BiasTypeKeys(bs: seq<BiasAnalysis>): (r: seq<string>)
    ensures |r| == |bs| && forall i :: 0 <= i < |bs| ==> r[i] == bs[i].biasType
  {
    seq(|bs|, i requires 0 <= i < |bs| => bs[i].biasType)
  }

  function DirectionKeys(ss: seq<AlphaSignal>): (r: seq<string>)
    ensures |r| == |ss| && forall i :: 0 <= i < |ss| ==> r[i] == DirectionName(ss[i].direction)
  {
    seq(|ss|, i requires 0 <= i < |ss| => DirectionName(ss[i].direction))
  }

  // ------------------------------------------------------------------
  // Recent activity
  // ------------------------------------------------------------------

  /** The positions of the findings detected strictly less than seven days ago. */
  ghost function RecentBiasIndices(bs: seq<BiasAnalysis>, now: Millis): set<int> {
    set i | 0 <= i < |bs| && WithinLastWeek(now, bs[i].detectedAt)
  }

  /** One more finding adds its position exactly when it is younger than seven days. */
  lemma RecentBiasIndicesSnoc(bs: seq<BiasAnalysis>, now: Millis)
    requires bs != []
    ensures var n := |bs| - 1;
      |RecentBiasIndices(bs, now)| ==
      |RecentBiasIndices(bs[..n], now)| + (if WithinLastWeek(now, bs[n].detectedAt) then 1 else 0)
  {
    var n := |bs| - 1;
    var init := RecentBiasIndices(bs[..n], now);
    var last: set<int> := if WithinLastWeek(now, bs[n].detectedAt) then {n} else {};
    assert RecentBiasIndices(bs, now) == init + last;
    assert n !in init;
  }

  /** `biases.filter(b => now - b.detectedAt < 7 days).length` */
  function RecentBiasCount(bs: seq<BiasAnalysis>, now: Millis): (n: nat)
    ensures n == |RecentBiasIndices(bs, now)| <= |bs|
  {
    if bs == [] then
      assert RecentBiasIndices(bs, now) == {};
      0
    else
      RecentBiasIndicesSnoc(bs, now);
      RecentBiasCount(bs[..|bs| - 1], now) + (if WithinLastWeek(now, bs[|bs| - 1].detectedAt) then 1 else 0)
  }

  /** Findings that are all a week old or older are not counted as recent. */
  lemma {:induction false} StaleBiasesNotRecent(bs: seq<BiasAnalysis>, now: Millis)
    requires forall i :: 0 <= i < |bs| ==> !WithinLastWeek(now, bs[i].detectedAt)
    ensures RecentBiasCount(bs, now) == 0
  {
    if bs != [] {
      StaleBiasesNotRecent(bs[..|bs| - 1], now);
    }
  }

  /** Findings detected within the week are all counted. */
  lemma {:induction false} FreshBiasesAllRecent(bs: seq<BiasAnalysis>, now: Millis)
    requires forall i :: 0 <= i < |bs| ==> WithinLastWeek(now, bs[i].detectedAt)
    ensures RecentBiasCount(bs, now) == |bs|
  {
    if bs != [] {
      FreshBiasesAllRecent(bs[..|bs| - 1], now);
    }
  }

  // ------------------------------------------------------------------
  // The insights response
  // ------------------------------------------------------------------

  datatype Insights = Insights(
    alphaScore: real,
    improvement: real,
    period: string,
    biasesDetected: nat,
    signalsGenerated: nat,
    biasesCorrected: nat,
    opportunitiesMissed: nat,
    byBiasType: map<string, nat>,
    bySignalDirection: map<string, nat>,
    recommendations: seq<string>)

  /**
   * The `/insights` handler once the score is known: a failed score
   * computation fails the response; the bias and signal reads degrade to
   * empty lists.
   */
  method BuildInsights(score: Result<AlphaScore, string>, biasRows: Option<seq<BiasAnalysis>>,
                       signalRows: Option<seq<AlphaSignal>>, now: Millis)
    returns (r: Result<Insights, string>)
    ensures score.Failure? <==> r.Failure?
    ensures r.Failure? ==> r.error == "Failed to generate alpha insights"
    ensures r.Success? ==>
      var s := score.value;
      var bs := FetchedBiases(biasRows);
      var ss := FetchedSignals(signalRows);
      r.value.alphaScore == s.score && r.value.improvement == s.improvement && r.value.period == s.period
      && r.value.biasesCorrected == s.biasesCorrected && r.value.opportunitiesMissed == s.opportunitiesMissed
      && r.value.biasesDetected == RecentBiasCount(bs, now) <= |bs|
      && r.value.signalsGenerated == |RecentSignals(ss, now)| <= |ss|
      && r.value.byBiasType == Counts(BiasTypeKeys(bs))
      && r.value.bySignalDirection == Counts(DirectionKeys(ss))
      && r.value.recommendations == Recommendations(s.score, s.improvement, HighSeverityCount(bs), HighConfidenceCount(ss))
  {
    if score.Failure? {
      return Failure("Failed to generate alpha insights");
    }
    var alphaScore := score.value;
    var recentBiases := FetchedBiases(biasRows);
    var recentBiasesCount := RecentBiasCount(recentBiases, now);
    var recentSignals := FetchedSignals(signalRows);
    var recentSignalsCount := |RecentSignals(recentSignals, now)|;
    var biasBreakdown := CountBy(BiasTypeKeys(recentBiases));
    var signalDistribution := CountBy(DirectionKeys(recentSignals));
    var recommendations := GenerateRecommendations(alphaScore, recentBiases, recentSignals);
    r := Success(Insights(alphaScore.score, alphaScore.improvement, alphaScore.period,
                          recentBiasesCount, recentSignalsCount, alphaScore.biasesCorrected, alphaScore.opportunitiesMissed,
                          biasBreakdown, signalDistribution, recommendations));
  }

  /**
   * The breakdowns cover every fetched item, not only the last week's: their
   * counts add up to the fetched list lengths, at most 50 findings and 100 signals.
   */
  lemma BreakdownsCoverFetchedRows(biasRows: Option<seq<BiasAnalysis>>, signalRows: Option<seq<AlphaSignal>>)
    ensures Total(Counts(BiasTypeKeys(FetchedBiases(biasRows)))) == |FetchedBiases(biasRows)| <= BiasFetchLimit
    ensures Total(Counts(DirectionKeys(FetchedSignals(signalRows)))) == |FetchedSignals(signalRows)| <= SignalFetchLimit
  {
    CountsTotal(BiasTypeKeys(FetchedBiases(biasRows)));
    CountsTotal(DirectionKeys(FetchedSignals(signalRows)));
  }
}
