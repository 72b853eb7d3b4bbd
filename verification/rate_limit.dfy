/**
 * The request rate limiter of backend/src/middleware/rateLimit.ts: a counter
 * per key in the shared cache, read on every request, rejected at the limit,
 * otherwise incremented with the window as its time to live.
 *
 * The cache is a map from key to `Entry`; an entry whose expiry has passed
 * reads as absent, as it does in the cache server. A TTL of 0 seconds is a
 * plain write without expiry (the cache wrapper only sets a TTL when it is
 * non-zero), and refreshing the expiry with 0 seconds deletes the key.
 */
module RateLimit {
  import opened Wrappers
  import opened Domain

  /** The options of `createRateLimit`, after the defaults are filled in. */
  datatype Config = Config(windowMs: nat, maxRequests: nat, skipSuccessful: bool)

  /** A stored counter and the instant it expires at (`None`: never). */
  datatype Entry = Entry(count: nat, expiresAt: Option<Millis>)

  /** What the middleware does with one request. */
  datatype Decision =
    | Rejected
      /** Passed on, with the three `X-RateLimit-*` header values. */
    | Allowed(limit: nat, remaining: nat, resetAt: Millis)
      /** The cache failed: the request is passed on without headers. */
    | FailedOpen

  /** `Math.ceil(windowMs / 1000)`: the counter's time to live, in seconds. */
  function TtlSeconds(windowMs: nat): (r: nat)
    ensures windowMs <= r * 1000 < windowMs + 1000
    ensures r == 0 <==> windowMs == 0
  {
    (windowMs + 999) / 1000
  }

  /**
   * The expiry a write with a TTL of `ttl` seconds gives the key: `setEx`
   * for a positive TTL, a plain `set` that never expires for 0.
   */
  function Expiry(ttl: nat, now: Millis): (r: Option<Millis>)
    ensures r.None? <==> ttl == 0
    ensures r.Some? ==> r.value == now + ttl * 1000 && r.value > now
  {
    if ttl == 0 then None else Some(now + ttl * 1000)
  }

  predicate Live(e: Entry, now: Millis) {
    e.expiresAt.None? || now < e.expiresAt.value
  }

  /** The counter the middleware reads: a missing or expired key reads as 0. */
  function CountAt(store: map<string, Entry>, key: string, now: Millis): (r: nat)
    ensures key !in store ==> r == 0
    ensures key in store && Live(store[key], now) ==> r == store[key].count
  {
    if key in store && Live(store[key], now) then store[key].count else 0
  }

  /** `X-RateLimit-Remaining`: `Math.max(0, maxRequests - requests - 1)`. */
  function Remaining(maxRequests: nat, requests: nat): (r: nat)
    ensures requests < maxRequests ==> r + requests + 1 == maxRequests
    ensures requests >= maxRequests ==> r == 0
  {
    if requests + 1 <= maxRequests then maxRequests - requests - 1 else 0
  }

  /** The `expire` call on the rejection path: only an existing key is touched. */
  function Refresh(store: map<string, Entry>, key: string, now: Millis, ttl: nat): (r: map<string, Entry>)
    ensures forall k :: k != key ==> (k in r <==> k in store)
    ensures forall k :: k != key && k in r ==> r[k] == store[k]
  {
    if key in store && Live(store[key], now) then
      if ttl == 0 then store - {key} else store[key := store[key].(expiresAt := Some(now + ttl * 1000))]
    else store
  }

  /**
   * One pass of the middleware when every cache call succeeds: the new cache
   * and the decision.
   */
  function Step(cfg: Config, store: map<string, Entry>, key: string, now: Millis): (r: (map<string, Entry>, Decision))
    ensures r.1 != FailedOpen
  {
    var requests := CountAt(store, key, now);
    var ttl := TtlSeconds(cfg.windowMs);
    if requests >= cfg.maxRequests then
      (Refresh(store, key, now, ttl), Rejected)
    else
      (store[key := Entry(requests + 1, Expiry(ttl, now))],
       Allowed(cfg.maxRequests, Remaining(cfg.maxRequests, requests), now + cfg.windowMs))
  }

  /** Every stored counter is at most the limit. */
  predicate Bounded(store: map<string, Entry>, maxRequests: nat) {
    forall k :: k in store ==> store[k].count <= maxRequests
  }

  /** A request is rejected exactly when its counter has reached the limit. */
  lemma StepRejectsIffAtLimit(cfg: Config, store: map<string, Entry>, key: string, now: Millis)
    ensures Step(cfg, store, key, now).1 == Rejected <==> CountAt(store, key, now) >= cfg.maxRequests
  {
  }

  /**
   * A rejected request leaves its counter as it was (only the expiry moves),
   * unless the window is 0 ms, when the refresh deletes it; an allowed request
   * adds one, and the remaining header is exactly the headroom left.
   */
  lemma StepCounter(cfg: Config, store: map<string, Entry>, key: string, now: Millis)
    ensures var (s, d) := Step(cfg, store, key, now);
      (d == Rejected && cfg.windowMs > 0 ==> CountAt(s, key, now) == CountAt(store, key, now)) &&
      (d == Rejected && cfg.windowMs == 0 ==> CountAt(s, key, now) == 0) &&
      (d.Allowed? ==> CountAt(s, key, now) == CountAt(store, key, now) + 1 &&
                      d.remaining == cfg.maxRequests - CountAt(s, key, now) &&
                      d.resetAt == now + cfg.windowMs)
  {
  }

  /** No other key's counter is touched. */
  lemma StepTouchesOnlyKey(cfg: Config, store: map<string, Entry>, key: string, now: Millis, k: string)
    requires k != key
    ensures var s := Step(cfg, store, key, now).0;
      (k in s <==> k in store) && (k in s ==> s[k] == store[k])
  {
  }

  /** The stored counter never exceeds the limit. */
  lemma StepKeepsBounded(cfg: Config, store: map<string, Entry>, key: string, now: Millis)
    requires Bounded(store, cfg.maxRequests)
    ensures Bounded(Step(cfg, store, key, now).0, cfg.maxRequests)
  {
  }

  /** Requests on one key at the given instants, each passing the limiter once; the final cache and the number passed on. */
  function Run(cfg: Config, store: map<string, Entry>, key: string, times: seq<Millis>): (r: (map<string, Entry>, nat))
    ensures r.1 <= |times|
    decreases |times|
  {
    if times == [] then (store, 0)
    else
      var first := Step(cfg, store, key, times[0]);
      var rest := Run(cfg, first.0, key, times[1..]);
      (rest.0, rest.1 + if first.1.Allowed? then 1 else 0)
  }

  function Stored(store: map<string, Entry>, key: string): nat {
    if key in store then store[key].count else 0
  }

  /** The key is absent, or its counter is within the limit and lives past the window that starts at `start`. */
  predicate WindowOpen(cfg: Config, store: map<string, Entry>, key: string, start: Millis) {
    key in store ==>
      store[key].count <= cfg.maxRequests &&
      store[key].expiresAt.Some? && store[key].expiresAt.value >= start + cfg.windowMs
  }

  predicate InWindow(cfg: Config, start: Millis, times: seq<Millis>) {
    forall i :: 0 <= i < |times| ==> start <= times[i] < start + cfg.windowMs
  }

  /** One request inside the window: the counter goes up by one if there is headroom, and the window stays open. */
  lemma WindowStep(cfg: Config, store: map<string, Entry>, key: string, start: Millis, now: Millis)
    requires cfg.windowMs > 0 && WindowOpen(cfg, store, key, start)
    requires start <= now < start + cfg.windowMs
    ensures var (s, d) := Step(cfg, store, key, now);
      WindowOpen(cfg, s, key, start) &&
      (d.Allowed? <==> Stored(store, key) < cfg.maxRequests) &&
      Stored(s, key) == (if d.Allowed? then Stored(store, key) + 1 else Stored(store, key))
  {
    var ttl := TtlSeconds(cfg.windowMs);
    assert key in store ==> Live(store[key], now);
    assert CountAt(store, key, now) == Stored(store, key);
    assert now + ttl * 1000 >= start + cfg.windowMs;
  }

  /**
   * Within one window that starts with the key fresh or open, a burst of
   * requests gets exactly as many through as the headroom allows: at most
   * `maxRequests` per window.
   */
  lemma {:induction false} BurstAcceptsUpToLimit(cfg: Config, store: map<string, Entry>, key: string, start: Millis, times: seq<Millis>)
    requires cfg.windowMs > 0 && WindowOpen(cfg, store, key, start)
    requires InWindow(cfg, start, times)
    decreases |times|
    ensures var headroom := cfg.maxRequests - Stored(store, key);
      Run(cfg, store, key, times).1 == if |times| <= headroom then |times| else headroom
  {
    if times != [] {
      WindowStep(cfg, store, key, start, times[0]);
      var first := Step(cfg, store, key, times[0]);
      assert InWindow(cfg, start, times[1..]) by {
        forall i | 0 <= i < |times[1..]| ensures start <= times[1..][i] < start + cfg.windowMs {
          assert times[1..][i] == times[i + 1];
        }
      }
      BurstAcceptsUpToLimit(cfg, first.0, key, start, times[1..]);
    }
  }

  /**
   * A route that applies the same limiter twice on one key: the second pass
   * only runs when the first lets the request through, and the request
   * proceeds only if both do.
   */
  function StepTwice(cfg: Config, store: map<string, Entry>, key: string, now: Millis): (r: (map<string, Entry>, Decision))
    ensures r.1.Allowed? ==> Step(cfg, store, key, now).1.Allowed?
    ensures forall k :: k != key ==> (k in r.0 <==> k in store) && (k in r.0 ==> r.0[k] == store[k])
  {
    var first := Step(cfg, store, key, now);
    if first.1.Allowed? then Step(cfg, first.0, key, now) else first
  }

  function RunTwice(cfg: Config, store: map<string, Entry>, key: string, times: seq<Millis>): (r: (map<string, Entry>, nat))
    ensures r.1 <= |times|
    decreases |times|
  {
    if times == [] then (store, 0)
    else
      var first := StepTwice(cfg, store, key, times[0]);
      var rest := RunTwice(cfg, first.0, key, times[1..]);
      (rest.0, rest.1 + if first.1.Allowed? then 1 else 0)
  }

  lemma WindowStepTwice(cfg: Config, store: map<string, Entry>, key: string, start: Millis, now: Millis)
    requires cfg.windowMs > 0 && WindowOpen(cfg, store, key, start)
    requires start <= now < start + cfg.windowMs
    ensures var (s, d) := StepTwice(cfg, store, key, now);
      WindowOpen(cfg, s, key, start) &&
      (d.Allowed? <==> Stored(store, key) + 2 <= cfg.maxRequests) &&
      Stored(s, key) == (if d.Allowed? then Stored(store, key) + 2
                         else if Stored(store, key) < cfg.maxRequests then cfg.maxRequests
                         else Stored(store, key))
  {
    WindowStep(cfg, store, key, start, now);
    var first := Step(cfg, store, key, now);
    if first.1.Allowed? {
      WindowStep(cfg, first.0, key, start, now);
    }
  }

  /**
   * With the limiter applied twice, every request that gets through costs
   * two units of the counter, so a window lets through only half the limit
   * (rounded down).
   */
  lemma {:induction false} DoubleCountedBurst(cfg: Config, store: map<string, Entry>, key: string, start: Millis, times: seq<Millis>)
    requires cfg.windowMs > 0 && WindowOpen(cfg, store, key, start)
    requires InWindow(cfg, start, times)
    decreases |times|
    ensures var headroom := (cfg.maxRequests - Stored(store, key)) / 2;
      RunTwice(cfg, store, key, times).1 == if |times| <= headroom then |times| else headroom
  {
    if times != [] {
      WindowStepTwice(cfg, store, key, start, times[0]);
      var first := StepTwice(cfg, store, key, times[0]);
      assert InWindow(cfg, start, times[1..]) by {
        forall i | 0 <= i < |times[1..]| ensures start <= times[1..][i] < start + cfg.windowMs {
          assert times[1..][i] == times[i + 1];
        }
      }
      DoubleCountedBurst(cfg, first.0, key, start, times[1..]);
    }
  }

  /** With the default general limit, 100 requests from a fresh address in one window: 50 pass twice-counted, all 100 pass counted once. */
  lemma DefaultGeneralLimitHalved(key: string, start: Millis, times: seq<Millis>)
    requires |times| == 100
    requires forall i :: 0 <= i < |times| ==> start <= times[i] < start + 900000
    ensures RunTwice(GeneralConfig(None, None), map[], key, times).1 == 50
    ensures Run(GeneralConfig(None, None), map[], key, times).1 == 100
  {
    var cfg := GeneralConfig(None, None);
    assert InWindow(cfg, start, times);
    DoubleCountedBurst(cfg, map[], key, start, times);
    BurstAcceptsUpToLimit(cfg, map[], key, start, times);
  }

  /** With a 0 ms window counters never expire, and a rejection deletes the counter, so the next request passes again. */
  lemma ZeroWindowRejectionResets(cfg: Config, store: map<string, Entry>, key: string, now: Millis)
    requires cfg.windowMs == 0 && CountAt(store, key, now) >= cfg.maxRequests
    ensures var s := Step(cfg, store, key, now).0;
      Step(cfg, s, key, now).1.Allowed? <==> cfg.maxRequests > 0
  {
  }

  /** `req.ip || req.connection.remoteAddress || 'unknown'`: an absent or empty string falls through. */
  function OrElse(a: Option<string>, b: string): (r: string)
    ensures a.Some? && a.value != "" ==> r == a.value
    ensures (a.None? || a.value == "") ==> r == b
  {
    if a.Some? && a.value != "" then a.value else b
  }

  const DefaultPrefix: string := "rate_limit:"
  const ApiPrefix: string := "api_limit:"

  /** The default key generator: one counter per client address. */
  function DefaultKey(ip: Option<string>, remoteAddress: Option<string>): (r: string)
    ensures |r| > |DefaultPrefix| && r[..|DefaultPrefix|] == DefaultPrefix
  {
    DefaultPrefix + OrElse(ip, OrElse(remoteAddress, "unknown"))
  }

  /** How a template literal renders a possibly undefined string. */
  function Render(s: Option<string>): string {
    if s.Some? then s.value else "undefined"
  }

  /** The API limiter's key: the user's id when authenticated, the address otherwise. */
  function ApiKey(userId: Option<string>, ip: Option<string>): (r: string)
    ensures |r| >= |ApiPrefix| && r[..|ApiPrefix|] == ApiPrefix
  {
    ApiPrefix + if userId.Some? then userId.value else Render(ip)
  }

  /** Distinct clients get distinct default counters. */
  lemma DefaultKeyInjective(ip: string, ip': string)
    requires ip != "" && ip' != "" && ip != ip'
    ensures DefaultKey(Some(ip), None) != DefaultKey(Some(ip'), None)
  {
    assert DefaultKey(Some(ip), None)[|DefaultPrefix|..] == ip;
    assert DefaultKey(Some(ip'), None)[|DefaultPrefix|..] == ip';
  }

  /** Two authenticated users never share an API counter, whatever their addresses. */
  lemma ApiKeySeparatesUsers(u: string, u': string, ip: Option<string>, ip': Option<string>)
    requires u != u'
    ensures ApiKey(Some(u), ip) != ApiKey(Some(u'), ip')
  {
    assert ApiKey(Some(u), ip)[|ApiPrefix|..] == u;
    assert ApiKey(Some(u'), ip')[|ApiPrefix|..] == u';
  }

  /** The general and the API limiters count in different keys. */
  lemma LimitersNeverShareKeys(ip: Option<string>, remoteAddress: Option<string>, userId: Option<string>, ip': Option<string>)
    ensures DefaultKey(ip, remoteAddress) != ApiKey(userId, ip')
  {
    assert DefaultKey(ip, remoteAddress)[0] == 'r';
    assert ApiKey(userId, ip')[0] == 'a';
  }

  /**
   * The general limiter: window and limit from the environment (an unset or
   * empty variable, `None`, takes the default of 15 minutes and 100 requests).
   */
  function GeneralConfig(windowEnv: Option<nat>, maxEnv: Option<nat>): (r: Config)
    ensures r.windowMs == windowEnv.GetOr(900000) && r.maxRequests == maxEnv.GetOr(100)
    ensures !r.skipSuccessful
  {
    Config(windowEnv.GetOr(15 * 60 * 1000), maxEnv.GetOr(100), false)
  }

  /** Five attempts per 15 minutes. */
  const AuthConfig: Config := Config(15 * 60 * 1000, 5, false)

  /** The sign-in limiter lets five attempts through in a fifteen-minute window, however many are made. */
  lemma AuthLimitFivePerWindow(key: string, start: Millis, times: seq<Millis>)
    requires |times| >= 5
    requires forall i :: 0 <= i < |times| ==> start <= times[i] < start + 15 * 60 * 1000
    ensures Run(AuthConfig, map[], key, times).1 == 5
  {
    assert InWindow(AuthConfig, start, times);
    BurstAcceptsUpToLimit(AuthConfig, map[], key, start, times);
  }

  /** Sixty requests per minute. */
  const ApiConfig: Config := Config(60 * 1000, 60, false)

  /** The API limiter lets sixty requests per key through in a one-minute window. */
  lemma ApiLimitSixtyPerMinute(key: string, start: Millis, times: seq<Millis>)
    requires |times| >= 60
    requires forall i :: 0 <= i < |times| ==> start <= times[i] < start + 60 * 1000
    ensures Run(ApiConfig, map[], key, times).1 == 60
  {
    assert InWindow(ApiConfig, start, times);
    BurstAcceptsUpToLimit(ApiConfig, map[], key, start, times);
  }

  /** The limiter's shared cache, and the middleware that reads and rewrites it. */
  class RateLimiter {
    const config: Config
    var store: map<string, Entry>

    predicate Valid()
      reads this
    {
      Bounded(store, config.maxRequests)
    }

    constructor(config: Config)
      ensures this.config == config && store == map[]
      ensures Valid()
    {
      this.config := config;
      store := map[];
    }

    /**
     * Handles one request on `key` at `now`. `storeOk` is false when one of
     * the cache calls throws: the error is logged and the request proceeds,
     * with the cache as it was.
     */
    method Handle(key: string, now: Millis, storeOk: bool) returns (d: Decision)
      requires Valid()
      modifies this
      ensures Valid()
      ensures !storeOk ==> d == FailedOpen && store == old(store)
      ensures storeOk ==> (store, d) == Step(config, old(store), key, now)
    {
      if !storeOk {
        return FailedOpen;
      }
      StepKeepsBounded(config, store, key, now);
      var requests := CountAt(store, key, now);
      var ttl := TtlSeconds(config.windowMs);
      if requests >= config.maxRequests {
        if key in store && Live(store[key], now) {
          if ttl == 0 {
            store := store - {key};
          } else {
            store := store[key := store[key].(expiresAt := Some(now + ttl * 1000))];
          }
        }
        return Rejected;
      }
      store := store[key := Entry(requests + 1, Expiry(ttl, now))];
      var remaining := if requests + 1 <= config.maxRequests then config.maxRequests - requests - 1 else 0;
      d := Allowed(config.maxRequests, remaining, now + config.windowMs);
    }

    /**
     * The response to a request has finished with `status`. With
     * `skipSuccessful`, a request that was passed on and succeeded (status
     * below 400) deletes its counter.
     */
    method Finish(key: string, d: Decision, status: int)
      requires Valid()
      modifies this
      ensures Valid()
      ensures config.skipSuccessful && d.Allowed? && status < 400 ==> store == old(store) - {key}
      ensures !(config.skipSuccessful && d.Allowed? && status < 400) ==> store == old(store)
    {
      if config.skipSuccessful && d.Allowed? && status < 400 {
        store := store - {key};
      }
    }
  }
}
