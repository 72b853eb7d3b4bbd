# Neufin alpha score, valuation and request rules in Dafny

This project models the computational core of the Neufin backend, an
investment platform built around behavioural finance. Each Dafny module
models one source file:

- `AlphaScoreService` covers the alpha-score engine. It has three
  sub-scores:
  - a portfolio-return score;
  - a bias score, a severity-weighted penalty that decays with age;
  - a signal score, the mean confidence of the last seven days' signals.

  It also covers the composed score, improvement factor, rounding and the
  read-through score cache. Bias detection runs five ordered detectors.
  Signal generation runs once per holding.
- `AlphaRoutes` covers the `/alpha/insights` aggregation: the threshold
  recommendation rules, the per-type and per-direction breakdowns, and the
  seven-day counts.
- `PortfolioRoutes` covers portfolio valuation. Each holding is valued in
  place from its quote, or at cost when the quote fails, with a running
  total. It also covers the create and update totals, the performance
  summary, and the portfolio store. That store has owner checks, 404s and
  cache invalidation.
- `RateLimit` covers the Redis-backed rate-limit middleware: a per-key
  counter that rejects at the limit and otherwise increments, fails open,
  and optionally deletes the counter on success. It also covers the three
  configured limiters and their key generators.
- `UserRoutes` covers the settings defaults, the partial-update merge and
  the `/user/stats` sums.
- `StockRoutes` covers batch-quote validation and partition, the market
  overview filter and search validation.
- `StockService` covers:
  - the quote validity check;
  - the candle mapping;
  - volume formatting;
  - word-presence sentiment;
  - ticker extraction;
  - the news item mapping.
- `AiChat` covers the keyword-priority canned response, the order of the
  conversation history, topic extraction, majority sentiment and the
  engagement score.
- `ApiConfig` covers the frontend URL builders and their environment
  defaults.

`Wrappers`, `Text` and `Domain` hold the shared helpers:
- `Option` and `Result`;
- ASCII case mapping and substring search;
- decimal rendering;
- the entities of `backend/src/types/index.ts`.

Money, prices and scores are `real`. Times are milliseconds (`nat`), and the
current time is always a parameter. Every `Math.random()` draw is a
parameter of type `Unit`, the reals in [0, 1). Detector and generator
outcomes are parameters too. So are the reads of the alpha-score inputs, the
stock service and the chat history, each as an `Option`, where `None` means
the read failed or found nothing; where a failing read and an empty one lead
to different results (the chat history), the read is a `CacheRead` that tells
them apart. The portfolio and settings routes read their cache and tables as
state that is always reachable (see "Left out"). The cache writes of the score, quotes,
candles and chat history, the bias and signal inserts, and the rate limiter's
counter each take a `bool` parameter saying whether they succeeded.
`Math.round(x * 100) / 100` is `Round2`, rounding halves up on exact reals.

The model follows the code in these places:
- **Storing detections and signals.** The stores of
  `detectBiases`/`generateAlphaSignals` swallow insert errors, and their
  reads of biases and signals turn errors into empty lists. Scoring
  therefore does not fail when the store cannot be read.
- **Cache writes.** A failing cache write inside `calculateAlphaScore`
  fails the whole computation.
- **Improvement.** With confidences in [0, 1], the improvement is never
  negative. The "declined" recommendation is therefore unreachable from a
  computed score.
- **Create response.** The create-portfolio response reports `totalValue`
  0, while the stored row gets the quoted total.
- **Performance.** The performance endpoint reads holdings as stored, with
  no price. Its gain is therefore always 0.

## Model

| member | source | states |
|---|---|---|
| AlphaScoreService.ScoreForReturn | backend/src/services/alphaScoreService.ts:207-214 | the return score is in [0,100], and inside ±25 points of the 8% market average it is exactly 50 + 2·(return − 8) |
| AlphaScoreService.ScoreForReturnMonotone | backend/src/services/alphaScoreService.ts:211-212 | a higher return never gives a lower score |
| AlphaScoreService.PortfolioScore | backend/src/services/alphaScoreService.ts:189-215 | the portfolio score lies in [0,100] and is exactly 50 for an empty portfolio |
| AlphaScoreService.CalculatePortfolioScore | backend/src/services/alphaScoreService.ts:189-215 | the accumulating loop computes exactly `PortfolioScore` |
| AlphaScoreService.GainLossIsValueMinusCost | backend/src/services/alphaScoreService.ts:198-205 | the summed per-holding gain equals total marked value minus total cost basis |
| AlphaScoreService.UnpricedHoldingsHaveNoGain | backend/src/services/alphaScoreService.ts:199-201 | holdings without a current price are marked at cost and contribute no gain |
| AlphaScoreService.UnpricedPortfolioScores34 | backend/src/services/alphaScoreService.ts:189-215 | a non-empty unpriced portfolio has return 0 and so scores 50 − 16 = 34 |
| AlphaScoreService.RecencyWeight | backend/src/services/alphaScoreService.ts:227-228 | the recency weight never drops below 0.1 and is 1 for a bias detected now |
| AlphaScoreService.BiasScore | backend/src/services/alphaScoreService.ts:217-235 | the bias score lies in [0,100] and is exactly 100 without biases |
| AlphaScoreService.CalculateBiasScore | backend/src/services/alphaScoreService.ts:217-235 | the decrementing loop computes exactly `BiasScore` |
| AlphaScoreService.PenaltyAtLeastHalf | backend/src/services/alphaScoreService.ts:227-231 | every bias costs at least 0.5 points (lowest penalty 5 times the 0.1 floor) |
| AlphaScoreService.TotalPenaltyAtLeast | backend/src/services/alphaScoreService.ts:226-232 | n biases cost at least 0.5·n points together |
| AlphaScoreService.AnyBiasLowersScore | backend/src/services/alphaScoreService.ts:217-235 | a single bias of any age keeps the bias score below 100 |
| AlphaScoreService.HarsherPenalty | backend/src/services/alphaScoreService.ts:230 | the penalty is monotone in severity: low 5, medium 10, high 15 |
| AlphaScoreService.HarsherTotalPenalty | backend/src/services/alphaScoreService.ts:226-234 | raising the severity of biases (same ages) never lowers the summed penalty |
| AlphaScoreService.HarsherBiasesScoreLower | backend/src/services/alphaScoreService.ts:226-234 | raising the severity of biases (same ages) never raises the bias score |
| AlphaScoreService.ThreeFreshHighBiasesScore55 | backend/src/services/alphaScoreService.ts:217-235 | three high-severity biases detected now give 100 − 45 = 55 |
| AlphaScoreService.RecentSignals | backend/src/services/alphaScoreService.ts:243-245 | exactly the signals younger than seven days are kept: every kept one is recent, every recent one is kept, and their number is the number of positions holding a recent signal |
| AlphaScoreService.RecentSignalsSnoc | backend/src/services/alphaScoreService.ts:243-245 | one more signal is kept, at the end, exactly when it is younger than seven days |
| AlphaScoreService.RecentSignalIndicesSnoc | backend/src/services/alphaScoreService.ts:243-245 | one more signal adds one recent position exactly when it is younger than seven days |
| AlphaScoreService.CalculateSignalScore | backend/src/services/alphaScoreService.ts:237-258 | the filter-and-sum loop computes exactly `SignalScore` |
| AlphaScoreService.RecentSignalsAppend | backend/src/services/alphaScoreService.ts:243-245 | the seven-day filter distributes over concatenation, keeping order |
| AlphaScoreService.NoRecentSignals | backend/src/services/alphaScoreService.ts:243-249 | signals all older than seven days leave nothing to score |
| AlphaScoreService.StaleSignalsIgnored | backend/src/services/alphaScoreService.ts:237-258 | adding signals older than seven days never changes the signal score |
| AlphaScoreService.ConfidenceSumBounds | backend/src/services/alphaScoreService.ts:252-255 | with confidences in [0,1] the summed confidence·100 lies in [0, 100·n] |
| AlphaScoreService.MeanBounds | backend/src/services/alphaScoreService.ts:257 | a total within [0, 100·n] has a mean within [0,100] |
| AlphaScoreService.SignalScoreIsMeanConfidence | backend/src/services/alphaScoreService.ts:237-258 | the signal score lies in [0,100], and with recent signals it is exactly their mean confidence·100 (the cap never bites) |
| AlphaScoreService.HighConfidenceIndicesSnoc | backend/src/services/alphaScoreService.ts:260-264 | one more signal adds one position exactly when its confidence is above 0.8 |
| AlphaScoreService.HighConfidenceCount | backend/src/services/alphaScoreService.ts:260-264 | the missed-opportunity count is the number of positions whose signal has confidence strictly above 0.8 |
| AlphaScoreService.HighConfidenceCountAppend | backend/src/services/alphaScoreService.ts:260-264 | the count of confidences above 0.8 is additive over concatenation, over all signals not only recent ones |
| AlphaScoreService.FetchedBiases | backend/src/services/alphaScoreService.ts:154-164 | a bias read returns the first min(n, 50) rows in query order, and a failed read gives none |
| AlphaScoreService.FetchedSignals | backend/src/services/alphaScoreService.ts:166-176 | a signal read returns the first min(n, 100) rows in query order, and a failed read gives none |
| AlphaScoreService.ImprovementFactor | backend/src/services/alphaScoreService.ts:37 | the improvement factor 1 + 0.02·biases is at least 1 |
| AlphaScoreService.ComposeScore | backend/src/services/alphaScoreService.ts:18-49 | the composed score carries the user, period "30d", the time, biasesCorrected = number of fetched biases, opportunitiesMissed = the high-confidence count over all fetched signals, score = Round2(final) and improvement = Round2(final − base) for the average of the three sub-scores |
| AlphaScoreService.FinalScoreIsCappedScale | backend/src/services/alphaScoreService.ts:36-39 | the final score is the base scaled by 1 + 0.02·biases, or 100 when that is higher; never above either |
| AlphaScoreService.ComposedScoreFormula | backend/src/services/alphaScoreService.ts:34-47 | below the cap the score is the rounded scaled base and the improvement the rounded gain; at or above it the score is 100 and the improvement Round2(100 − base); the missed count is the cardinality of the high-confidence positions |
| AlphaScoreService.ScaledAtLeast | backend/src/services/alphaScoreService.ts:37-39 | scaling a non-negative base by a factor of at least 1 does not lower it |
| AlphaScoreService.ComposedScoreInRange | backend/src/services/alphaScoreService.ts:34-44 | with valid confidences the rounded score is in [0,100] and the rounded improvement is never negative |
| AlphaScoreService.FinalScoreBounds | backend/src/services/alphaScoreService.ts:39 | the final score lies between the base score and 100 |
| AlphaScoreService.RoundedScoreBounds | backend/src/services/alphaScoreService.ts:43-44 | rounding to two decimals keeps the score in [0,100] and the improvement non-negative |
| AlphaScoreService.NewUserScores6667 | backend/src/services/alphaScoreService.ts:18-49 | a user with no portfolio, biases or signals scores round2((50+100+50)/3) = 66.67 with improvement 0 and no missed opportunities |
| AlphaScoreService.ScoreCache.CalculateAlphaScore | backend/src/services/alphaScoreService.ts:6-58 | a live cache hit is returned unchanged; a miss or failed read recomputes and caches under `alpha_score:<userId>` for 3600 s; a failing cache write fails with "Failed to calculate alpha score" and changes nothing |
| AlphaScoreService.DetectorIndex | backend/src/services/alphaScoreService.ts:64-70 | maps a bias type back to its position in the detector list |
| AlphaScoreService.DetectorIndexOf | backend/src/services/alphaScoreService.ts:64-70 | the five detector types are distinct, so each position is recovered from its type |
| AlphaScoreService.DetectionsUpTo | backend/src/services/alphaScoreService.ts:72-89 | every finding carries the caller's userId and the current time, and comes from one of the detectors run so far |
| AlphaScoreService.RunDetectors | backend/src/services/alphaScoreService.ts:72-89 | the detector loop, which skips detectors that throw, collects exactly `Detections` |
| AlphaScoreService.BiasTypesAppend | backend/src/services/alphaScoreService.ts:72-89 | the set of reported bias types distributes over concatenation |
| AlphaScoreService.DetectedIffReported | backend/src/services/alphaScoreService.ts:72-89 | a detector's bias type is among the findings iff that detector reported detected = true (not when it threw) |
| AlphaScoreService.DetectionsInDetectorOrder | backend/src/services/alphaScoreService.ts:64-89 | findings appear in the fixed detector order: loss aversion, confirmation, overconfidence, anchoring, herding |
| AlphaScoreService.DetectionCount | backend/src/services/alphaScoreService.ts:72-89 | there are exactly as many findings as detectors that reported a detection |
| AlphaScoreService.Index3 | backend/src/services/alphaScoreService.ts:292-294 | `Math.floor(random·3)` is a valid index into a three-element list |
| AlphaScoreService.Index4 | backend/src/services/alphaScoreService.ts:298 | `Math.floor(random·4)` is a valid index into the four categories |
| AlphaScoreService.SignalForAsset | backend/src/services/alphaScoreService.ts:282-300 | a generated signal is for the given symbol, has userId "" and the current time, confidence in [0.5,1) and 10..109 sources |
| AlphaScoreService.SignalsUpTo | backend/src/services/alphaScoreService.ts:99-124 | every generated signal is valid, stamped now, and still carries userId "" |
| AlphaScoreService.CollectSignals | backend/src/services/alphaScoreService.ts:99-124 | the per-holding loop, which skips failed generations, collects exactly `SignalsUpTo` |
| AlphaScoreService.SignalPerHolding | backend/src/services/alphaScoreService.ts:112-120 | when no generation fails there is one signal per holding, in holding order and for that holding's symbol |
| AlphaScoreService.RowsOf | backend/src/services/alphaScoreService.ts:166-172 | a per-user read returns only stored rows owned by that user |
| AlphaScoreService.RowsOfSnoc | backend/src/services/alphaScoreService.ts:166-172 | one more row is selected exactly when its owner is the user |
| AlphaScoreService.RowsOfAppend | backend/src/services/alphaScoreService.ts:166-172 | the owner filter distributes over appended rows |
| AlphaScoreService.RowsOfNone | backend/src/services/alphaScoreService.ts:166-172 | rows of other owners are never returned |
| AlphaScoreService.GeneratedSignalsInvisible | backend/src/services/alphaScoreService.ts:99-124 | as written, storing generated signals never changes what any real user reads back (see Findings) |
| AlphaScoreService.Owned | backend/src/services/alphaScoreService.ts:290 | stamping sets each signal's userId and leaves everything else, including order, intact |
| AlphaScoreService.OwnedSignalsVisible | backend/src/services/alphaScoreService.ts:99-124 | once stamped with the caller's id, stored signals are exactly what that user reads back after the old rows |
| AlphaScoreService.OwnedRowsOf | backend/src/services/alphaScoreService.ts:166-172 | a user reads back all of the signals stamped with their id |
| AlphaScoreService.AnalysisStore.DetectBiases | backend/src/services/alphaScoreService.ts:60-97 | returns the detections, and appends them to the bias table only when non-empty and the insert succeeds; signals untouched |
| AlphaScoreService.AnalysisStore.GenerateAlphaSignals | backend/src/services/alphaScoreService.ts:99-129 | returns the generated signals with their empty owner, as written (none without a portfolio), appended to the signal table only when non-empty and the insert succeeds; the user's signal rows are unchanged by the call |
| AlphaScoreService.ReturnPct | backend/src/services/alphaScoreService.ts:207 | with a positive total value the return is gain/loss as a percentage of it; otherwise it is 0 |
| AlphaScoreService.TotalPenalty | backend/src/services/alphaScoreService.ts:226-232 | any bias at all makes the penalty positive |
| AlphaScoreService.SignalScore | backend/src/services/alphaScoreService.ts:237-258 | no recent signals score the neutral 50; otherwise the score is at most 100 and at most the mean confidence (×100) of the recent signals |
| AlphaScoreService.FinalScore | backend/src/services/alphaScoreService.ts:37-39 | the final score is the base score times the improvement factor, capped at 100: at most both, and equal to one of them |
| AlphaScoreService.Detections | backend/src/services/alphaScoreService.ts:72-89 | at most one finding per detector, each stamped with the caller and the detection time; a detector's bias type is found iff it reported a bias |
| AlphaScoreService.DetectedIffReportedAll | backend/src/services/alphaScoreService.ts:72-89 | for every detector at once: its bias type is among the findings iff it reported detected = true |
| AlphaRoutes.HighSeverityCount | backend/src/routes/alpha.ts:202 | the high-severity count is the number of positions holding a high-severity bias, so it is zero iff no bias has severity high |
| AlphaRoutes.HighSeverityIndicesSnoc | backend/src/routes/alpha.ts:202 | one more bias adds one position exactly when its severity is high |
| AlphaRoutes.GenerateRecommendations | backend/src/routes/alpha.ts:191-226 | the rule-by-rule pushes produce exactly `Recommendations` |
| AlphaRoutes.HighSeverityMessageDistinct | backend/src/routes/alpha.ts:202-205 | the high-severity message never coincides with any other rule's message |
| AlphaRoutes.HighSeverityMessageInjective | backend/src/routes/alpha.ts:204 | different counts give different high-severity messages |
| AlphaRoutes.RecommendationsCount | backend/src/routes/alpha.ts:191-226 | there are always between one and four recommendations |
| AlphaRoutes.DefaultIffNoRuleFires | backend/src/routes/alpha.ts:221-223 | the default message appears iff no rule fires, and then alone |
| AlphaRoutes.ScoreRuleIff | backend/src/routes/alpha.ts:195-199 | below-average iff score < 50, excellent iff score > 80, never both, and first when present |
| AlphaRoutes.HighSeverityRuleIff | backend/src/routes/alpha.ts:202-205 | a high-severity message appears iff the count is positive, and only with that exact count |
| AlphaRoutes.SignalRuleIff | backend/src/routes/alpha.ts:208-211 | the review message appears iff more than five signals have confidence above 0.8 |
| AlphaRoutes.ImprovementRuleIff | backend/src/routes/alpha.ts:214-218 | praise iff improvement > 5, decline iff improvement < 0, never both, and last when present |
| AlphaRoutes.DeclineNeverShownForComposedScore | backend/src/routes/alpha.ts:214-218 | for a freshly computed score the decline message can never appear |
| AlphaRoutes.TotalRemove | backend/src/routes/alpha.ts:147-156 | a breakdown's total is one key's count plus the total of the rest |
| AlphaRoutes.CountsAreOccurrences | backend/src/routes/alpha.ts:147-150 | the breakdown has exactly the keys that occur, each mapped to its number of occurrences |
| AlphaRoutes.CountsTotal | backend/src/routes/alpha.ts:147-156 | the counts of a breakdown add up to the number of items |
| AlphaRoutes.CountBy | backend/src/routes/alpha.ts:147-156 | the `reduce` over the accumulator record computes exactly `Counts` |
| AlphaRoutes.BiasTypeKeys | backend/src/routes/alpha.ts:148 | biases are grouped by their bias type, one key per row |
| AlphaRoutes.DirectionKeys | backend/src/routes/alpha.ts:154 | signals are grouped by their direction name, one key per row |
| AlphaRoutes.RecentBiasCount | backend/src/routes/alpha.ts:136-138 | the recent-bias count is the number of positions holding a bias detected less than seven days ago |
| AlphaRoutes.RecentBiasIndicesSnoc | backend/src/routes/alpha.ts:136-138 | one more bias adds one position exactly when it was detected within the week |
| AlphaRoutes.StaleBiasesNotRecent | backend/src/routes/alpha.ts:136-138 | biases all at least seven days old count zero |
| AlphaRoutes.FreshBiasesAllRecent | backend/src/routes/alpha.ts:136-138 | biases all younger than seven days are all counted |
| AlphaRoutes.BuildInsights | backend/src/routes/alpha.ts:127-189 | the insights carry the score's fields, the seven-day counts, the two breakdowns and the recommendations; a failed score gives "Failed to generate alpha insights" |
| AlphaRoutes.BreakdownsCoverFetchedRows | backend/src/routes/alpha.ts:147-156 | the breakdowns cover all fetched rows (up to 50 biases and 100 signals), not only the last seven days |
| AlphaRoutes.Recommendations | backend/src/routes/alpha.ts:191-226 | one to four messages; a score below 50 leads with the below-average message and a score above 80 with the excellent one |
| AlphaRoutes.Counts | backend/src/routes/alpha.ts:147-156 | the breakdown has a count exactly for the keys that occur |
| PortfolioRoutes.Valued | backend/src/routes/portfolio.ts:39-58 | valuation keeps one holding per holding |
| PortfolioRoutes.ValuedStep | backend/src/routes/portfolio.ts:39-58 | the last valued holding is the last holding valued with its own quote, the rest are the rest valued |
| PortfolioRoutes.ValuedPointwise | backend/src/routes/portfolio.ts:39-58 | each holding is valued from its own quote only, independently of the others |
| PortfolioRoutes.ValuedHoldingConsistent | backend/src/routes/portfolio.ts:42-55 | a valued holding keeps symbol, shares and cost; value = shares·price, gain = value − cost, percent = gain/cost·100; a failed quote gives price = cost and zero gain |
| PortfolioRoutes.PositiveProduct | backend/src/middleware/validation.ts:48-49 | positive shares and cost give a positive cost basis, so the gain percentage is defined |
| PortfolioRoutes.ValuedHoldingValue | backend/src/routes/portfolio.ts:42-55 | the value is shares times the quote or the cost, and the effective price the score later uses is that same price |
| PortfolioRoutes.ValueHoldings | backend/src/routes/portfolio.ts:39-58 | the in-place loop leaves every array slot valued and returns the sum of the values |
| PortfolioRoutes.CalculateQuotedTotal | backend/src/routes/portfolio.ts:112-120 | the create/update loop computes Σ shares × (quote or cost) |
| PortfolioRoutes.ValuedTotalIsQuotedTotal | backend/src/routes/portfolio.ts:186-204 | the total after valuation equals the create/update total for the same quotes |
| PortfolioRoutes.UnquotedTotalIsCostBasis | backend/src/routes/portfolio.ts:112-120 | with every quote failing, the total is the cost basis |
| PortfolioRoutes.MarkedValuedHolding | backend/src/routes/portfolio.ts:42-55 | with a non-zero quote or none, a valued holding marked at its effective price is worth what the quoted total counts for it: shares times the quote, or shares times the cost |
| PortfolioRoutes.ValuedMarkedValue | backend/src/routes/portfolio.ts:39-58 | re-marking valued holdings (as the alpha score does) gives the quoted total back |
| PortfolioRoutes.PortfolioPerformance | backend/src/routes/portfolio.ts:419-441 | the mock changes lie in ±2, ±5, ±10 and ±20 percent |
| PortfolioRoutes.PerformanceGain | backend/src/routes/portfolio.ts:419-429 | gain = value − cost, the percentage is over a positive cost exactly when there are holdings, else all 0 |
| PortfolioRoutes.UnpricedPerformanceFlat | backend/src/routes/portfolio.ts:419-429 | holdings without prices show value = cost and no gain |
| PortfolioRoutes.StoredAll | backend/src/routes/portfolio.ts:91-98 | each stored holding row keeps only symbol, shares and cost |
| PortfolioRoutes.PutRowKeepsTables | backend/src/routes/portfolio.ts:256-276 | writing a portfolio row under its own id, with or without replacing its holdings by stored (price-less) copies, keeps rows keyed by id, holdings owned by an existing row, valid and unpriced |
| PortfolioRoutes.RemoveKeepsTables | backend/src/routes/portfolio.ts:337-345 | deleting a portfolio's holdings and then its row keeps the same table invariant |
| PortfolioRoutes.PortfolioStore.ValuedView | backend/src/routes/portfolio.ts:186-204 | a single portfolio is shown with valued holdings and its quoted total |
| PortfolioRoutes.PortfolioStore.ListingViews | backend/src/routes/portfolio.ts:28-58 | the listing has one view per portfolio of the user |
| PortfolioRoutes.PortfolioStore.ValuePortfolio | backend/src/routes/portfolio.ts:186-204 | the per-holding loop over an array produces exactly `ValuedView` |
| PortfolioRoutes.PortfolioStore.ValueListing | backend/src/routes/portfolio.ts:36-58 | the per-portfolio loop produces exactly `ListingViews` |
| PortfolioRoutes.PortfolioStore.ListPortfolios | backend/src/routes/portfolio.ts:13-78 | a live list-cache entry is returned as is; otherwise the listing is valued and cached under `portfolios:<userId>` for 300 s |
| PortfolioRoutes.PortfolioStore.GetPortfolio | backend/src/routes/portfolio.ts:149-223 | a cached entry is served only to its owner; a foreign or missing portfolio is NotFound; otherwise valued and cached for 120 s |
| PortfolioRoutes.PortfolioStore.CreatePortfolio | backend/src/routes/portfolio.ts:81-146 | stores the row with the quoted total and the holdings, drops the user's list cache, and answers totalValue 0 with the request holdings |
| PortfolioRoutes.PortfolioStore.UpdatePortfolio | backend/src/routes/portfolio.ts:226-316 | a foreign portfolio is NotFound; otherwise name overridden if given, holdings replaced wholesale and total requoted if given, updatedAt refreshed, both cache keys dropped |
| PortfolioRoutes.PortfolioStore.DeletePortfolio | backend/src/routes/portfolio.ts:319-365 | a foreign portfolio is NotFound; otherwise row and holdings removed and both cache keys dropped |
| PortfolioRoutes.PortfolioStore.GetPerformance | backend/src/routes/portfolio.ts:368-417 | NotFound iff not owned; otherwise the performance of the stored holdings, whose gain is always 0 |
| PortfolioRoutes.CreatedPortfolioValuedConsistently | backend/src/routes/portfolio.ts:112-125 | the stored total of a new portfolio equals the total a later GET computes with the same quotes |
| PortfolioRoutes.StoredTotal | backend/src/routes/portfolio.ts:112-120 | dropping derived fields from holdings does not change their quoted total |
| PortfolioRoutes.ValueHolding | backend/src/routes/portfolio.ts:41-55 | symbol, shares and cost are kept; a quote sets the price and values the shares at it; a failed quote prices and values them at cost |
| PortfolioRoutes.QuotedTotal | backend/src/routes/portfolio.ts:112-120 | with no quotes available the total is the cost basis |
| PortfolioRoutes.PortfolioStore.ListingViewsPointwise | backend/src/routes/portfolio.ts:29-58 | the i-th listed view is the i-th of the user's portfolios, valued |
| RateLimit.TtlSeconds | backend/src/middleware/rateLimit.ts:30 | `ceil(windowMs/1000)`: the smallest whole number of seconds covering the window, 0 only for a zero window |
| RateLimit.Expiry | backend/src/config/redis.ts:35-42 | a TTL of 0 stores the key without expiry; otherwise it expires exactly ttl seconds after the write |
| RateLimit.CountAt | backend/src/middleware/rateLimit.ts:26-27 | a missing key reads as 0 and a live key as its counter |
| RateLimit.Remaining | backend/src/middleware/rateLimit.ts:53 | the remaining header is max − count − 1 under the limit and 0 from it on |
| RateLimit.Refresh | backend/src/config/redis.ts:79-82 | refreshing an expiry touches no other key |
| RateLimit.Step | backend/src/middleware/rateLimit.ts:23-57 | a request with a reachable store is allowed or rejected, never passed through unchecked |
| RateLimit.StepRejectsIffAtLimit | backend/src/middleware/rateLimit.ts:29 | a request is rejected iff its counter has reached the limit |
| RateLimit.StepCounter | backend/src/middleware/rateLimit.ts:29-55 | a rejection leaves the counter as it was (zero window: deletes it); an acceptance raises it by one and reports remaining = max − new count and reset = now + window |
| RateLimit.StepTouchesOnlyKey | backend/src/middleware/rateLimit.ts:25-41 | a request changes no other key's counter |
| RateLimit.StepKeepsBounded | backend/src/middleware/rateLimit.ts:29-41 | no counter ever exceeds the limit |
| RateLimit.Run | backend/src/middleware/rateLimit.ts:23-57 | a sequence of requests accepts at most as many as were made |
| RateLimit.WindowStep | backend/src/middleware/rateLimit.ts:29-41 | within an open window a request is allowed iff the counter is below the limit, and the counter then rises by one |
| RateLimit.BurstAcceptsUpToLimit | backend/src/middleware/rateLimit.ts:29-41 | within one window exactly min(requests, max − counter) requests are accepted |
| RateLimit.RunTwice | backend/src/routes/stocks.ts:11-13 | a sequence of doubly limited requests accepts at most as many as were made |
| RateLimit.WindowStepTwice | backend/src/routes/stocks.ts:11-13 | with the limiter applied twice, a request passes iff two slots remain, and takes both |
| RateLimit.DoubleCountedBurst | backend/src/routes/stocks.ts:11-13 | with the limiter applied twice, only min(requests, (max − counter)/2) pass in a window (see Findings) |
| RateLimit.DefaultGeneralLimitHalved | backend/src/middleware/rateLimit.ts:65-68 | of 100 requests within 15 minutes from a fresh address, 50 pass through the doubled limiter against 100 through one |
| RateLimit.ZeroWindowRejectionResets | backend/src/middleware/rateLimit.ts:30 | with a zero window a rejection deletes the counter, so the next request passes |
| RateLimit.OrElse | backend/src/middleware/rateLimit.ts:17 | `a \|\| b`: an absent or empty string falls back |
| RateLimit.DefaultKey | backend/src/middleware/rateLimit.ts:16-19 | the default key is `rate_limit:` followed by the non-empty address or "unknown" |
| RateLimit.ApiKey | backend/src/middleware/rateLimit.ts:78-81 | the API key is `api_limit:` followed by the user id, or the address when unauthenticated |
| RateLimit.DefaultKeyInjective | backend/src/middleware/rateLimit.ts:16-19 | different addresses get different counters |
| RateLimit.ApiKeySeparatesUsers | backend/src/middleware/rateLimit.ts:78-81 | different users get different API counters, whatever their addresses |
| RateLimit.LimitersNeverShareKeys | backend/src/middleware/rateLimit.ts:16-19 | the default and API limiters never touch the same counter |
| RateLimit.GeneralConfig | backend/src/middleware/rateLimit.ts:65-68 | the general limiter defaults to a 900000 ms window and 100 requests |
| RateLimit.RateLimiter.Handle | backend/src/middleware/rateLimit.ts:23-62 | with a reachable store the request takes one step and the limit invariant holds; a store error lets it through and changes nothing |
| RateLimit.RateLimiter.Finish | backend/src/middleware/rateLimit.ts:43-49 | the counter is deleted iff skipping successful requests, the request was allowed and the status is below 400 |
| RateLimit.StepTwice | backend/src/routes/stocks.ts:11-13 | a request passes the doubled limiter only if it passes the first pass, and other keys' counters are untouched |
| RateLimit.AuthLimitFivePerWindow | backend/src/middleware/rateLimit.ts:70-73 | five or more sign-in attempts in one fifteen-minute window: exactly five get through |
| RateLimit.ApiLimitSixtyPerMinute | backend/src/middleware/rateLimit.ts:75-78 | sixty or more API requests on one key in one minute: exactly sixty get through |
| UserRoutes.DefaultSettings | backend/src/routes/user.ts:54-74 | defaults: email, portfolio, news, alpha updates on, push off; dark theme, USD, moderate risk |
| UserRoutes.ApplyNotificationsFieldwise | backend/src/routes/user.ts:114 | each notification switch in the update overrides the stored one, all others are kept |
| UserRoutes.ApplyPreferencesFieldwise | backend/src/routes/user.ts:115 | each preference in the update overrides the stored one, all others are kept |
| UserRoutes.UpdateSettings | backend/src/routes/user.ts:112-117 | an update merges the patch's notifications and preferences over the stored ones, keeps the userId and refreshes updatedAt |
| UserRoutes.CreateSettings | backend/src/routes/user.ts:126-143 | a creation merges the patch over the default notifications and preferences, belongs to the caller and is stamped now |
| UserRoutes.PutSettings | backend/src/routes/user.ts:96-143 | the patch is merged over the stored settings when there are some, else over the defaults; the result is the caller's, stamped now |
| UserRoutes.GetSettings | backend/src/routes/user.ts:33-94 | cached settings win, then stored ones, else the defaults |
| UserRoutes.CreateIsUpdateOfDefaults | backend/src/routes/user.ts:124-143 | creating equals updating the default settings with the same body |
| UserRoutes.UpdateIdempotent | backend/src/routes/user.ts:112-117 | applying the same update twice is the same as once |
| UserRoutes.UpdatesCompose | backend/src/routes/user.ts:112-117 | two updates equal one carrying the later value of every field |
| UserRoutes.EmptyUpdateOnlyRefreshes | backend/src/routes/user.ts:112-117 | an empty update changes only updatedAt |
| UserRoutes.Bump | backend/src/routes/user.ts:254-258 | grouping a row adds at most one new group |
| UserRoutes.BumpAddsOne | backend/src/routes/user.ts:254-258 | grouping one more row raises the total count by one |
| UserRoutes.TotalDetectedCountsRows | backend/src/routes/user.ts:281 | totalDetected equals the number of bias rows |
| UserRoutes.BumpKeepsDistinct | backend/src/routes/user.ts:257 | grouping keeps the (type, severity) groups distinct and invents none |
| UserRoutes.GroupsAreDistinct | backend/src/routes/user.ts:257 | each (type, severity) pair forms exactly one group |
| UserRoutes.StatsFor | backend/src/routes/user.ts:241-251 | portfoliosCount is 1 iff a portfolio exists; holdingsCount and value come from its holdings, else 0 |
| UserRoutes.UnpricedStatsValueIsCostBasis | backend/src/routes/user.ts:249-250 | without current prices the value is the cost basis |
| UserRoutes.StatsValuePositive | backend/src/routes/user.ts:249-250 | with valid holdings and non-negative prices the value is non-negative, and positive when there are holdings |
| UserRoutes.ApplyNotifications | backend/src/routes/user.ts:114 | an empty patch keeps the switches; a patch naming all five replaces them |
| UserRoutes.ApplyPreferences | backend/src/routes/user.ts:115 | an empty patch keeps the preferences; a patch naming all three replaces them |
| UserRoutes.Grouped | backend/src/routes/user.ts:254-258 | there are no more groups than rows, and any row gives at least one group |
| UserRoutes.TotalDetected | backend/src/routes/user.ts:281 | the total is at least every group's count |
| StockService.FormatVolume | backend/src/services/stockService.ts:170-179 | B iff ≥ 1e9, M iff in [1e6, 1e9), K iff in [1e3, 1e6), none below 1e3: exactly one tier |
| StockService.FormatVolumeRoundTrip | backend/src/services/stockService.ts:170-179 | amount × suffix factor gives the volume back, and a suffixed amount is at least 1 (below 1000 for K and M) |
| StockService.GetQuote | backend/src/services/stockService.ts:14-59 | a cached quote is returned as is; otherwise success iff `c` is present and non-zero and the cache write succeeds, with the symbol, price, change, percentage, high, low, open and time from the response; any failure is "Failed to fetch stock quote for <symbol>" |
| StockService.QuoteVolumeIsDayHigh | backend/src/services/stockService.ts:45 | the volume field is formatted from the day high, 0 when absent |
| StockService.At | backend/src/services/stockService.ts:96-100 | reading past the end of a field array gives undefined |
| StockService.GetCandleData | backend/src/services/stockService.ts:61-110 | cached candles are returned as is; otherwise success iff the request succeeds with status "ok" and the cache write succeeds, with one candle per timestamp; any failure is "Failed to fetch candle data for <symbol>" |
| StockService.CandlesAligned | backend/src/services/stockService.ts:94-101 | candle i combines t[i]·1000 with o[i], h[i], l[i], c[i] and v[i] |
| StockService.CountPresent | backend/src/services/stockService.ts:187-188 | the count is the number of listed words that occur in the text |
| StockService.PresentIndicesSnoc | backend/src/services/stockService.ts:187-188 | one more listed word adds one position exactly when it occurs in the text |
| StockService.AnalyzeSentiment | backend/src/services/stockService.ts:181-193 | positive iff more positive than negative words are present, negative iff the reverse, else neutral |
| StockService.CountPresentByPresence | backend/src/services/stockService.ts:187-188 | the count depends only on which words occur, not how often |
| StockService.SentimentByPresence | backend/src/services/stockService.ts:181-193 | texts with the same listed words present get the same sentiment |
| StockService.CountPresentAppend | backend/src/services/stockService.ts:187-188 | extending the text never lowers a count |
| StockService.SentimentCaseInsensitive | backend/src/services/stockService.ts:186 | upper-casing the text never changes its sentiment |
| StockService.RunLength | backend/src/services/stockService.ts:197 | a word run is maximal: word characters up to the first non-word character |
| StockService.Words | backend/src/services/stockService.ts:197 | the text splits into non-empty runs of word characters |
| StockService.Tickers | backend/src/services/stockService.ts:198-202 | kept words are 1–5 upper-case letters and not common words, in order |
| StockService.TickersMultiplicity | backend/src/services/stockService.ts:198-202 | each symbol word is kept exactly as often as it occurs, and no other word is kept |
| StockService.TickersKeepsSymbols | backend/src/services/stockService.ts:198-202 | a word is kept iff it occurs and is a symbol |
| StockService.ExtractSymbols | backend/src/services/stockService.ts:195-203 | a word is extracted iff it is a whole word of the text of 1–5 capitals outside the common-word list, and each such word as often as it occurs |
| StockService.TickersSnoc | backend/src/services/stockService.ts:200-202 | one more word is kept exactly when it is a ticker outside the common-word list |
| StockService.TickersAppend | backend/src/services/stockService.ts:200-202 | the filter distributes over concatenation, keeping order and duplicates |
| StockService.RunLengthStops | backend/src/services/stockService.ts:197 | a run stops at the first non-word character |
| StockService.WordsSplit | backend/src/services/stockService.ts:197 | a non-word character separates the words before it from those after |
| StockService.ExtractSymbolsConcat | backend/src/services/stockService.ts:195-203 | symbols of two texts joined by a space are the symbols of each, in order |
| StockService.ToNewsItem | backend/src/services/stockService.ts:133-143 | a news item has the summary's sentiment and symbols, relevance in [0.5,1), time·1000 and the id in decimal |
| StockService.OrZero | backend/src/services/stockService.ts:45 | a present number is kept and a missing one reads as 0 |
| StockService.CandleAt | backend/src/services/stockService.ts:94-101 | the candle's time is the Unix seconds times 1000, and each field is present exactly when its array reaches the index, holding that element |
| StockRoutes.ValidateBatch | backend/src/routes/stocks.ts:143-157 | accepted iff an array of 1..50 symbols; otherwise the matching 400 message |
| StockRoutes.Lookup | backend/src/routes/stocks.ts:160-161 | a key is found iff the map holds it, with its value |
| StockRoutes.Settle | backend/src/routes/stocks.ts:160-165 | a successful quote settles to the quote, a failure to the error record of the given name and message |
| StockRoutes.FetchOne | backend/src/routes/stocks.ts:160-165 | the upper-cased symbol is looked up: a cached quote is returned; otherwise a quote iff a valid response whose cache write succeeds; an error keeps the symbol as sent with the service's message |
| StockRoutes.QuotesOf | backend/src/routes/stocks.ts:170-179 | the quotes list holds only successful results |
| StockRoutes.ErrorsOf | backend/src/routes/stocks.ts:170-179 | the errors list holds only error records |
| StockRoutes.PartitionCovers | backend/src/routes/stocks.ts:170-179 | every result lands in exactly one of the two lists |
| StockRoutes.QuotesOfSnoc | backend/src/routes/stocks.ts:170-179 | one more result adds its quote exactly when it succeeded |
| StockRoutes.QuotesOfAppend | backend/src/routes/stocks.ts:170-179 | the quotes keep the results' relative order |
| StockRoutes.ErrorsOfSnoc | backend/src/routes/stocks.ts:170-179 | one more result is added to the errors exactly when it failed |
| StockRoutes.ErrorsOfAppend | backend/src/routes/stocks.ts:170-179 | the errors keep the results' relative order |
| StockRoutes.Partition | backend/src/routes/stocks.ts:170-179 | the push loop computes both lists, together as long as the results |
| StockRoutes.BatchQuotes | backend/src/routes/stocks.ts:136-199 | fails iff validation does; otherwise quotes and errors of the per-symbol results, with errors omitted iff empty |
| StockRoutes.AllQuotedNoErrors | backend/src/routes/stocks.ts:185 | a batch without failures has no errors field and all quotes |
| StockRoutes.FailedSymbolReported | backend/src/routes/stocks.ts:160-165 | a symbol with neither cached quote nor data is reported under the name it was sent with |
| StockRoutes.QuotesOfMembership | backend/src/routes/stocks.ts:170-179 | a quote is kept iff its successful result is among the results |
| StockRoutes.IndexResults | backend/src/routes/stocks.ts:212-216 | one settled result per index, in index order, an error keeping the index symbol |
| StockRoutes.MarketOverview | backend/src/routes/stocks.ts:202-240 | the indices are exactly the quotes of the index results, in index order, and a quote is shown iff some index's quote succeeded with it; the news are the first min(5, n) items |
| StockRoutes.AllQuotedQuotes | backend/src/routes/stocks.ts:170-179 | without failures the quotes are the results' quotes one for one |
| StockRoutes.AllIndicesShown | backend/src/routes/stocks.ts:212-228 | when no index quote fails all four are shown, in index order |
| StockRoutes.ValidateSearch | backend/src/routes/stocks.ts:108-114 | accepted iff `q` is a non-empty string; otherwise "Search query is required" |
| AiChat.MessageText | backend/src/services/aiChatService.ts:262 | a message's text is its message, else its response, else "" |
| AiChat.ResponseIndex | backend/src/services/aiChatService.ts:174-187 | the chosen response is one of the five keyword groups or the default |
| AiChat.AiResponse | backend/src/services/aiChatService.ts:160-193 | the reply is always one of the six canned texts |
| AiChat.ResponsePriority | backend/src/services/aiChatService.ts:174-187 | group k answers iff it matches and no earlier group does; the default iff none matches |
| AiChat.ResponseCaseInsensitive | backend/src/services/aiChatService.ts:174 | upper-casing the prompt never changes the reply |
| AiChat.PromptMentionsBias | backend/src/services/aiChatService.ts:126 | the lower-cased prompt contains "bias" whatever follows the opening |
| AiChat.EveryPromptGetsBiasResponse | backend/src/services/aiChatService.ts:126 | every built prompt contains "bias-aware", so every message gets the bias reply |
| AiChat.Reverse | backend/src/services/aiChatService.ts:54 | reversal keeps the length and mirrors the positions |
| AiChat.ReverseReverse | backend/src/services/aiChatService.ts:54 | reversing twice gives the rows back |
| AiChat.ConversationHistory | backend/src/services/aiChatService.ts:36-71 | cached history wins; after a miss, with a successful query and cache write, the history is the newest min(10, n) rows with position i holding the (n−1−i)-th newest; a failed cache read, query or cache write gives none |
| AiChat.HistoryIsChronological | backend/src/services/aiChatService.ts:47-61 | a newest-first query comes back oldest first, ending with the newest message |
| AiChat.AnyKeyword | backend/src/services/aiChatService.ts:264 | a topic matches iff some keyword occurs in the text |
| AiChat.TopicNamesDistinct | backend/src/services/aiChatService.ts:252-259 | the six topic names are distinct |
| AiChat.ExtractTopics | backend/src/services/aiChatService.ts:249-271 | a topic is reported iff some message mentions one of its keywords, only known topics, no duplicates |
| AiChat.Votes | backend/src/services/aiChatService.ts:277-288 | a vote count is at most the number of messages |
| AiChat.Verdict | backend/src/services/aiChatService.ts:290-292 | positive iff positive votes beat both others, negative likewise, else neutral |
| AiChat.VotesTotal | backend/src/services/aiChatService.ts:285-287 | every message casts exactly one vote |
| AiChat.ConversationSentiment | backend/src/services/aiChatService.ts:273-293 | the counting loop yields the verdict on the votes |
| AiChat.MajorityPositive | backend/src/services/aiChatService.ts:290 | a strict majority of positive messages makes the conversation positive |
| AiChat.CalculateEngagement | backend/src/services/aiChatService.ts:296 | no messages give score 0 and frequency 0 |
| AiChat.QuotientBounds | backend/src/services/aiChatService.ts:305-306 | dividing by at least one day never raises the count |
| AiChat.EngagementBounds | backend/src/services/aiChatService.ts:295-315 | the score is in [0,100] and the frequency between 0 and the message count |
| AiChat.Vote | backend/src/services/aiChatService.ts:277-288 | a message votes positive iff more listed positive than negative words occur in its lower-cased text, and negative iff the reverse |
| AiChat.RawEngagement | backend/src/services/aiChatService.ts:299-309 | the score is in [0, 100]; the frequency is at most the number of messages and times the day span (at least 1) gives that number |
| AiChat.RoundHalfUp | backend/src/services/aiChatService.ts:312 | `Math.round` lands within half of its input, halves going up |
| ApiConfig.EnvOr | src/utils/apiConfig.ts:8-15 | an empty or missing variable falls back to the default |
| ApiConfig.ConfigFromEnv | src/utils/apiConfig.ts:6-16 | the localhost backend and frontend and the fixed project id are the defaults |
| ApiConfig.StripTrailingSlash | src/utils/apiConfig.ts:24 | removes one trailing slash exactly when there is one |
| ApiConfig.StripsAtMostOne | src/utils/apiConfig.ts:24 | a base ending in two slashes keeps one |
| ApiConfig.CleanPath | src/utils/apiConfig.ts:25 | the clean path starts with a slash, adding one only when missing |
| ApiConfig.CleanPathIdempotent | src/utils/apiConfig.ts:25 | cleaning twice is cleaning once |
| ApiConfig.GetApiUrl | src/utils/apiConfig.ts:23-27 | the URL is the stripped base followed by the clean path, so exactly one slash at the join |
| ApiConfig.LeadingSlashOptional | src/utils/apiConfig.ts:25-26 | a path with or without its leading slash gives the same URL |
| ApiConfig.TrailingSlashOptional | src/utils/apiConfig.ts:24-26 | a base with or without one trailing slash gives the same URL, base + clean path |
| ApiConfig.GetSupabaseUrl | src/utils/apiConfig.ts:34-38 | the URL is https://<project id>.supabase.co/functions/v1 followed by the clean path |
| ApiConfig.SupabaseUrlShape | src/utils/apiConfig.ts:34-38 | the URL depends only on the project id and the path (the configured Supabase URL is not consulted), and a path with or without its leading slash names the same function |
| ApiConfig.GetOAuthRedirectUrl | src/utils/apiConfig.ts:44-46 | the redirect is the frontend URL followed by `/auth/callback` |
| ApiConfig.OAuthRedirectKeepsTrailingSlash | src/utils/apiConfig.ts:44-46 | any frontend URL ending in a slash yields a double slash before `auth/callback` |
| ApiConfig.DefaultOAuthRedirect | src/utils/apiConfig.ts:11 | by default the redirect is http://localhost:5173/auth/callback |
| Domain.CostBasisPositive | backend/src/middleware/validation.ts:48-49 | validated holdings have a positive cost basis whenever there is one |
| Domain.Round2Monotone | backend/src/services/alphaScoreService.ts:43-44 | rounding to two decimals is monotone |
| Domain.Take | backend/src/services/alphaScoreService.ts:159 | `.limit(n)` keeps the first min(length, n) rows, in order |
| Domain.Round2Bounds | backend/src/services/alphaScoreService.ts:43-44 | rounding moves a value by at most half a cent and fixes 0 and 100 |
| Domain.EffectivePrice | backend/src/services/alphaScoreService.ts:199 | a present non-zero price marks the holding; a missing or zero price falls back to the average cost |
| Domain.MarkedValue | backend/src/services/alphaScoreService.ts:195-205 | holdings that carry no price are marked at their cost basis |
| Domain.Round2 | backend/src/services/alphaScoreService.ts:43-44 | the result is within half a cent of its input |
| Domain.Round2WholeCents | backend/src/services/alphaScoreService.ts:43-44 | the result is a whole number of cents |
| Text.NatToStringRoundTrip | backend/src/services/stockService.ts:134 | the decimal rendering of an id parses back to it |
| Text.NatToStringInjective | backend/src/routes/alpha.ts:204 | different counts render differently |
| Text.Lower | backend/src/services/aiChatService.ts:278 | lower-casing keeps the length and lower-cases each character |
| Text.Contains | backend/src/services/aiChatService.ts:282 | a contained word is no longer than the text |
| Text.ContainsAt | backend/src/services/aiChatService.ts:282 | an occurrence at any index makes `includes` true |
| Text.ContainsOccurrence | backend/src/services/aiChatService.ts:282 | `includes` is true only where there is an occurrence |
| Text.NatToString | backend/src/routes/alpha.ts:204 | a count renders as a non-empty run of decimal digits (`Digits`) |

## Left out

- Database, Redis and network I/O are not modelled. In the alpha-score, stock and chat services, reads and writes are parameters (`Option` results and success flags). The portfolio and settings routes keep their tables and cache as class state (see the read-failure line below). The cache is a map with expiry times. JSON serialisation of cached values is the identity.
- `Promise.all` fan-out and concurrent cache races are modelled as sequential loops. Per-item isolation is kept.
- Floating point is left out: numbers are exact reals. `toFixed(1)` in `formatVolume` is kept as the exact quotient, and dates are rendered as numbers rather than ISO strings.
- Case mapping is ASCII only. Non-ASCII letters are left as they are.
- `buildPrompt` beyond its fixed opening sentence is left out: the history, context and user fields it templates in do not change the reply.
- The random ids, insight text and category of bias findings and signals are left out, apart from the range facts stated about the draws.
- The 429 response body and its message text are left out, as are the `X-RateLimit-*` header strings. The header values are stated as numbers.
- `parseInt` of the rate-limit environment variables is modelled as an optional natural number. A malformed value (NaN) is left out.
- The start and end dates of the performance request are left out, as the code ignores them.
- `getMarketNews`, `searchSymbols` and the market-movers mock are left out: they only call the provider or return fixed data.
- The batch endpoint's handling of non-string symbols is left out: symbols are strings.
- The `/user/stats` query reads snake_case columns (`current_price`, `average_cost`) of camelCase rows. The model reads the holding fields. The signal and chat counts of the stats are left out, as they are single aggregate queries.
- The order of `GROUP BY` groups is database-defined; only the counts and distinctness are stated.
- The cache writes and deletes of the portfolio and settings routes (`portfolio.ts` lines 62, 128, 207, 297-298 and 348-349; `user.ts` lines 77, 151 and 212) are assumed to succeed. A failing one answers 500, after any database change has already been made; the route methods do not model that answer.
- The cache and database reads of the portfolio and settings routes (`portfolio.ts` lines 19, 29, 35, 156, 169, 182, 237, 325 and 379-392; `user.ts` lines 39, 49 and 106) are assumed to succeed. In the source a throwing read answers 500 with the route's failure message ("Failed to fetch portfolios", "Failed to fetch portfolio", "Failed to update portfolio", "Failed to delete portfolio", "Failed to calculate portfolio performance", "Failed to fetch user settings" or "Failed to update user settings"; `portfolio.ts` lines 70-76, 216-221, 307-313, 357-363 and 408-414, `user.ts` lines 85-91 and 160-166); `GetSettings` and the `PortfolioStore` methods have no such failure path, and a `None` cache read in `GetSettings` means only a miss.
- Express routing, status codes beyond NotFound and the failure messages, Joi validation (kept only as the positivity preconditions), authentication and sockets are left out.
- AiChat.ExtractTopics: the `Set` is a sequence, and its insertion order is not stated in the contract. Only membership and distinctness are.
- AiChat.CalculateEngagement: only the empty case is stated exactly. The non-empty score is bounded through `EngagementBounds` rather than given in closed form, because of the rounding of the average length and frequency.

## Findings

| source | as written | input that shows it | evidently intended | confidence | as-written member | corrected member |
|---|---|---|---|---|---|---|
| backend/src/services/alphaScoreService.ts:290 | generated signals keep the placeholder userId "" ("set by caller"), and `generateAlphaSignals` stores them without setting it | a user with holdings whose generations succeed; afterwards `getAlphaSignals(userId)` for that non-empty id returns none of the new rows | the caller stamps each signal with its userId before storing | not executed | AlphaScoreService.GeneratedSignalsInvisible | AlphaScoreService.OwnedSignalsVisible |
| backend/src/routes/stocks.ts:11-13 | `generalRateLimit` is mounted on every `/api/stocks` route except POST `/quotes` (which uses `apiRateLimit`) and also globally (backend/src/server.ts:91), so each stock request raises the same `rate_limit:<ip>` counter twice | 100 stock requests within 15 minutes from a fresh address: only the first 50 pass | each request counts once, so 100 pass | not executed | RateLimit.DoubleCountedBurst | RateLimit.BurstAcceptsUpToLimit |
