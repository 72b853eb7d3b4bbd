/**
 * The user settings and statistics of backend/src/routes/user.ts: default
 * settings, the right-biased merge of a partial update over stored or
 * default settings, and the sums behind the statistics endpoint.
 */
module UserRoutes {
  import opened Wrappers
  import opened Domain

  datatype Theme = Light | Dark
  datatype Currency = USD | EUR | GBP
  datatype RiskTolerance = Conservative | Moderate | Aggressive

  datatype Notifications = Notifications(email: bool, push: bool, portfolio: bool, news: bool, alphaUpdates: bool)

  datatype Preferences = Preferences(theme: Theme, currency: Currency, riskTolerance: RiskTolerance)

  datatype Settings = Settings(userId: string, notifications: Notifications, preferences: Preferences, updatedAt: Millis)

  /** The fields a request may carry; a missing object is a patch with every field `None`. */
  datatype NotificationsPatch = NotificationsPatch(
    email: Option<bool>, push: Option<bool>, portfolio: Option<bool>, news: Option<bool>, alphaUpdates: Option<bool>)

  datatype PreferencesPatch = PreferencesPatch(
    theme: Option<Theme>, currency: Option<Currency>, riskTolerance: Option<RiskTolerance>)

  datatype SettingsPatch = SettingsPatch(notifications: NotificationsPatch, preferences: PreferencesPatch)

  const NoNotifications: NotificationsPatch := NotificationsPatch(None, None, None, None, None)
  const NoPreferences: PreferencesPatch := PreferencesPatch(None, None, None)

  const DefaultNotifications: Notifications := Notifications(true, false, true, true, true)
  const DefaultPreferences: Preferences := Preferences(Dark, USD, Moderate)

  /** The settings created for a user who has none. */
  function DefaultSettings(userId: string, now: Millis): (r: Settings)
    ensures r.userId == userId && r.updatedAt == now
    ensures r.notifications.email && !r.notifications.push && r.notifications.portfolio
    ensures r.notifications.news && r.notifications.alphaUpdates
    ensures r.preferences == Preferences(Dark, USD, Moderate)
  {
    Settings(userId, DefaultNotifications, DefaultPreferences, now)
  }

  /** `{ ...n, ...p }` */
  function ApplyNotifications(n: Notifications, p: NotificationsPatch): (r: Notifications)
    ensures p == NoNotifications ==> r == n
    ensures p.email.Some? && p.push.Some? && p.portfolio.Some? && p.news.Some? && p.alphaUpdates.Some? ==>
      r == Notifications(p.email.value, p.push.value, p.portfolio.value, p.news.value, p.alphaUpdates.value)
  {
    Notifications(
      p.email.GetOr(n.email), p.push.GetOr(n.push), p.portfolio.GetOr(n.portfolio),
      p.news.GetOr(n.news), p.alphaUpdates.GetOr(n.alphaUpdates))
  }

  /** `{ ...p, ...q }` */
  function ApplyPreferences(p: Preferences, q: PreferencesPatch): (r: Preferences)
    ensures q == NoPreferences ==> r == p
    ensures q.theme.Some? && q.currency.Some? && q.riskTolerance.Some? ==>
      r == Preferences(q.theme.value, q.currency.value, q.riskTolerance.value)
  {
    Preferences(q.theme.GetOr(p.theme), q.currency.GetOr(p.currency), q.riskTolerance.GetOr(p.riskTolerance))
  }

  /** The names of the notification switches, to speak of them one at a time. */
  datatype NotificationField = Email | Push | PortfolioAlerts | News | AlphaUpdates

  function Switch(n: Notifications, f: NotificationField): bool {
    match f
    case Email => n.email
    case Push => n.push
    case PortfolioAlerts => n.portfolio
    case News => n.news
    case AlphaUpdates => n.alphaUpdates
  }

  function PatchSwitch(p: NotificationsPatch, f: NotificationField): Option<bool> {
    match f
    case Email => p.email
    case Push => p.push
    case PortfolioAlerts => p.portfolio
    case News => p.news
    case AlphaUpdates => p.alphaUpdates
  }

  /** Each switch the update carries overrides the stored one; every other switch keeps its value. */
  lemma ApplyNotificationsFieldwise(n: Notifications, p: NotificationsPatch)
    ensures forall f :: Switch(ApplyNotifications(n, p), f) == (if PatchSwitch(p, f).Some? then PatchSwitch(p, f).value else Switch(n, f))
  {
    forall f ensures Switch(ApplyNotifications(n, p), f) == (if PatchSwitch(p, f).Some? then PatchSwitch(p, f).value else Switch(n, f)) {
      match f
      case Email =>
      case Push =>
      case PortfolioAlerts =>
      case News =>
      case AlphaUpdates =>
    }
  }

  /** Each preference the update carries overrides the stored one; the others keep their value. */
  lemma ApplyPreferencesFieldwise(p: Preferences, q: PreferencesPatch)
    ensures var r := ApplyPreferences(p, q);
      (q.theme.Some? ==> r.theme == q.theme.value) && (q.theme.None? ==> r.theme == p.theme) &&
      (q.currency.Some? ==> r.currency == q.currency.value) && (q.currency.None? ==> r.currency == p.currency) &&
      (q.riskTolerance.Some? ==> r.riskTolerance == q.riskTolerance.value) &&
      (q.riskTolerance.None? ==> r.riskTolerance == p.riskTolerance)
  {
  }

  /** Updating existing settings: both groups merged, the rest of the stored row kept, the timestamp refreshed. */
  function UpdateSettings(s: Settings, patch: SettingsPatch, now: Millis): (r: Settings)
    ensures r.userId == s.userId && r.updatedAt == now
    ensures r.notifications == ApplyNotifications(s.notifications, patch.notifications)
    ensures r.preferences == ApplyPreferences(s.preferences, patch.preferences)
  {
    s.(notifications := ApplyNotifications(s.notifications, patch.notifications),
       preferences := ApplyPreferences(s.preferences, patch.preferences),
       updatedAt := now)
  }

  /** Creating settings: the update's fields written over the literal defaults. */
  function CreateSettings(userId: string, patch: SettingsPatch, now: Millis): (r: Settings)
    ensures r.userId == userId && r.updatedAt == now
    ensures r.notifications == ApplyNotifications(DefaultNotifications, patch.notifications)
    ensures r.preferences == ApplyPreferences(DefaultPreferences, patch.preferences)
  {
    Settings(
      userId,
      ApplyNotifications(Notifications(true, false, true, true, true), patch.notifications),
      ApplyPreferences(Preferences(Dark, USD, Moderate), patch.preferences),
      now)
  }

  /** PUT `/settings`: merge over the stored row when there is one, else over the defaults. */
  function PutSettings(stored: Option<Settings>, userId: string, patch: SettingsPatch, now: Millis): (r: Settings)
    requires stored.Some? ==> stored.value.userId == userId
    ensures r.userId == userId && r.updatedAt == now
    ensures var base := if stored.Some? then stored.value else DefaultSettings(userId, now);
      r.notifications == ApplyNotifications(base.notifications, patch.notifications) &&
      r.preferences == ApplyPreferences(base.preferences, patch.preferences)
  {
    match stored
    case Some(s) => UpdateSettings(s, patch, now)
    case None => CreateSettings(userId, patch, now)
  }

  /** GET `/settings`: the cached copy, else the stored row, else fresh defaults. */
  function GetSettings(cached: Option<Settings>, stored: Option<Settings>, userId: string, now: Millis): (r: Settings)
    requires stored.Some? ==> stored.value.userId == userId
    ensures cached.None? && stored.None? ==> r == DefaultSettings(userId, now)
    ensures cached.None? && stored.Some? ==> r == stored.value
    ensures cached.Some? ==> r == cached.value
  {
    if cached.Some? then cached.value else if stored.Some? then stored.value else DefaultSettings(userId, now)
  }

  /** Creating settings is the same as updating the defaults the GET path would have created. */
  lemma CreateIsUpdateOfDefaults(userId: string, patch: SettingsPatch, created: Millis, now: Millis)
    ensures CreateSettings(userId, patch, now) == UpdateSettings(DefaultSettings(userId, created), patch, now)
  {
  }

  /** Sending the same update twice changes nothing beyond the timestamp. */
  lemma UpdateIdempotent(s: Settings, patch: SettingsPatch, t: Millis, now: Millis)
    ensures UpdateSettings(UpdateSettings(s, patch, t), patch, now) == UpdateSettings(s, patch, now)
  {
  }

  /** Field-by-field later-wins combination of two updates. */
  function ThenNotifications(p: NotificationsPatch, q: NotificationsPatch): NotificationsPatch {
    NotificationsPatch(
      if q.email.Some? then q.email else p.email,
      if q.push.Some? then q.push else p.push,
      if q.portfolio.Some? then q.portfolio else p.portfolio,
      if q.news.Some? then q.news else p.news,
      if q.alphaUpdates.Some? then q.alphaUpdates else p.alphaUpdates)
  }

  function ThenPreferences(p: PreferencesPatch, q: PreferencesPatch): PreferencesPatch {
    PreferencesPatch(
      if q.theme.Some? then q.theme else p.theme,
      if q.currency.Some? then q.currency else p.currency,
      if q.riskTolerance.Some? then q.riskTolerance else p.riskTolerance)
  }

  /** Two successive updates equal one update carrying the later value of every field. */
  lemma UpdatesCompose(s: Settings, p: SettingsPatch, q: SettingsPatch, t: Millis, now: Millis)
    ensures UpdateSettings(UpdateSettings(s, p, t), q, now) ==
            UpdateSettings(s, SettingsPatch(ThenNotifications(p.notifications, q.notifications),
                                            ThenPreferences(p.preferences, q.preferences)), now)
  {
  }

  /** An update without fields only refreshes the timestamp. */
  lemma EmptyUpdateOnlyRefreshes(s: Settings, now: Millis)
    ensures UpdateSettings(s, SettingsPatch(NoNotifications, NoPreferences), now) == s.(updatedAt := now)
  {
  }

  // Statistics

  /** One row of the grouped bias query: a (type, severity) pair and its number of rows. */
  datatype BiasStat = BiasStat(biasType: string, severity: Severity, count: nat)

  /** Counts one more row of the pair, adding the group when it is new. */
  function Bump(stats: seq<BiasStat>, biasType: string, severity: Severity): (r: seq<BiasStat>)
    ensures |r| == |stats| || |r| == |stats| + 1
  {
    if stats == [] then [BiasStat(biasType, severity, 1)]
    else if stats[0].biasType == biasType && stats[0].severity == severity then
      [stats[0].(count := stats[0].count + 1)] + stats[1..]
    else [stats[0]] + Bump(stats[1..], biasType, severity)
  }

  /** `GROUP BY biasType, severity` with `COUNT(*)`, groups in first-seen order. */
  function Grouped(rows: seq<BiasAnalysis>): (r: seq<BiasStat>)
    ensures |r| <= |rows|
    ensures rows != [] ==> r != []
  {
    if rows == [] then []
    else Bump(Grouped(rows[..|rows| - 1]), rows[|rows| - 1].biasType, rows[|rows| - 1].severity)
  }

  /** `biasStats.reduce((sum, stat) => sum + stat.count, 0)` */
  function TotalDetected(stats: seq<BiasStat>): (n: nat)
    ensures forall i :: 0 <= i < |stats| ==> stats[i].count <= n
  {
    if stats == [] then 0
    else
      assert forall i :: 1 <= i < |stats| ==> stats[1..][i - 1] == stats[i];
      stats[0].count + TotalDetected(stats[1..])
  }

  lemma {:induction false} BumpAddsOne(stats: seq<BiasStat>, biasType: string, severity: Severity)
    ensures TotalDetected(Bump(stats, biasType, severity)) == TotalDetected(stats) + 1
  {
    if stats != [] {
      var r := Bump(stats, biasType, severity);
      if stats[0].biasType == biasType && stats[0].severity == severity {
        assert r[1..] == stats[1..];
      } else {
        BumpAddsOne(stats[1..], biasType, severity);
        assert r[1..] == Bump(stats[1..], biasType, severity);
      }
    }
  }

  /** `totalDetected` is the number of bias rows of the user, however they group. */
  lemma {:induction false} TotalDetectedCountsRows(rows: seq<BiasAnalysis>)
    ensures TotalDetected(Grouped(rows)) == |rows|
  {
    if rows != [] {
      TotalDetectedCountsRows(rows[..|rows| - 1]);
      BumpAddsOne(Grouped(rows[..|rows| - 1]), rows[|rows| - 1].biasType, rows[|rows| - 1].severity);
    }
  }

  predicate DistinctGroups(stats: seq<BiasStat>) {
    forall i, j :: 0 <= i < j < |stats| ==>
      (stats[i].biasType, stats[i].severity) != (stats[j].biasType, stats[j].severity)
  }

  lemma {:induction false} BumpKeepsDistinct(stats: seq<BiasStat>, biasType: string, severity: Severity)
    requires DistinctGroups(stats)
    ensures DistinctGroups(Bump(stats, biasType, severity))
    ensures forall s :: s in Bump(stats, biasType, severity) ==>
      (s.biasType == biasType && s.severity == severity) || exists t :: t in stats && (t.biasType, t.severity) == (s.biasType, s.severity)
  {
    if stats != [] {
      var r := Bump(stats, biasType, severity);
      if !(stats[0].biasType == biasType && stats[0].severity == severity) {
        BumpKeepsDistinct(stats[1..], biasType, severity);
        var tail := Bump(stats[1..], biasType, severity);
        assert r == [stats[0]] + tail;
        forall j | 0 <= j < |tail| ensures (stats[0].biasType, stats[0].severity) != (tail[j].biasType, tail[j].severity) {
          assert tail[j] in tail;
          if tail[j].biasType == biasType && tail[j].severity == severity {
          } else {
            var t :| t in stats[1..] && (t.biasType, t.severity) == (tail[j].biasType, tail[j].severity);
            var k :| 0 <= k < |stats[1..]| && stats[1..][k] == t;
            assert stats[k + 1] == t;
          }
        }
        forall s | s in r ensures (s.biasType == biasType && s.severity == severity) || exists t :: t in stats && (t.biasType, t.severity) == (s.biasType, s.severity) {
          if s == stats[0] {
            assert stats[0] in stats;
          } else {
            assert s in tail;
            if !(s.biasType == biasType && s.severity == severity) {
              var t :| t in stats[1..] && (t.biasType, t.severity) == (s.biasType, s.severity);
              assert t in stats;
            }
          }
        }
      } else {
        forall s | s in r ensures exists t :: t in stats && (t.biasType, t.severity) == (s.biasType, s.severity) {
          if s == r[0] {
            assert stats[0] in stats;
          } else {
            var k :| 0 <= k < |r| && r[k] == s;
            assert stats[k] == s;
          }
        }
      }
    }
  }

  /** Every (type, severity) pair appears in one group only. */
  lemma {:induction false} GroupsAreDistinct(rows: seq<BiasAnalysis>)
    ensures DistinctGroups(Grouped(rows))
  {
    if rows != [] {
      GroupsAreDistinct(rows[..|rows| - 1]);
      BumpKeepsDistinct(Grouped(rows[..|rows| - 1]), rows[|rows| - 1].biasType, rows[|rows| - 1].severity);
    }
  }

  /** The `portfolio` block of the statistics: the user's first portfolio, if any. */
  datatype PortfolioStats = PortfolioStats(totalValue: real, holdingsCount: nat, portfoliosCount: nat)

  function StatsFor(first: Option<seq<Holding>>): (r: PortfolioStats)
    ensures r.portfoliosCount == 1 <==> first.Some?
    ensures r.portfoliosCount == 0 <==> first.None?
    ensures first.None? ==> r.holdingsCount == 0 && r.totalValue == 0.0
    ensures first.Some? ==> r.holdingsCount == |first.value| && r.totalValue == MarkedValue(first.value)
  {
    match first
    case None => PortfolioStats(0.0, 0, 0)
    case Some(hs) => PortfolioStats(MarkedValue(hs), |hs|, 1)
  }

  /** Holdings without a price are worth their cost basis in the statistics. */
  lemma {:induction false} UnpricedStatsValueIsCostBasis(hs: seq<Holding>)
    requires forall i :: 0 <= i < |hs| ==> hs[i].currentPrice.None?
    ensures StatsFor(Some(hs)).totalValue == CostBasis(hs)
  {
    if hs != [] {
      UnpricedStatsValueIsCostBasis(hs[..|hs| - 1]);
      assert MarkedValue(hs) == MarkedValue(hs[..|hs| - 1]) + hs[|hs| - 1].shares * hs[|hs| - 1].averageCost;
    }
  }

  /** With valid holdings at non-negative prices, a non-empty portfolio is worth more than nothing. */
  lemma {:induction false} StatsValuePositive(hs: seq<Holding>)
    requires AllValidHoldings(hs)
    requires forall i :: 0 <= i < |hs| ==> hs[i].currentPrice.Some? ==> hs[i].currentPrice.value >= 0.0
    ensures hs != [] ==> StatsFor(Some(hs)).totalValue > 0.0
    ensures StatsFor(Some(hs)).totalValue >= 0.0
  {
    if hs != [] {
      var last := hs[|hs| - 1];
      StatsValuePositive(hs[..|hs| - 1]);
      assert ValidHolding(last);
      assert EffectivePrice(last) > 0.0;
      assert last.shares * EffectivePrice(last) > 0.0;
    }
  }
}
