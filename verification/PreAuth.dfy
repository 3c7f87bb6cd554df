/**
 * The pre-authentication tiers (internal/httpapi/ratelimit.go, internal/httpapi/server.go): one
 * global bucket in front of two per-IP registries, which fall back on that same global bucket for
 * an address they have no room for.
 */
module PreAuth {
  import opened RateLimit

  const GLOBAL := Limit(50.0, 100)
  const MAX_KEYS := 4096
  const DEFAULT_STATUS_PER_MIN := 30
  const DEFAULT_PAIR_PER_MIN := 5
  const DEFAULT_GUARDED_PER_SEC := 20

  datatype Tier = StatusTier | PairTier

  /** NewServer's floor: a configured value below one means the default. */
  function Floored(configured: int, default_: nat): (n: nat)
    requires default_ >= 1
    ensures n >= 1
  {
    if configured < 1 then default_ else configured
  }

  /** A count per minute, all of which may come at once. */
  function PerMinute(configured: int, default_: nat): (lim: Limit)
    requires default_ >= 1
    ensures lim.burst >= 1 && lim.rate > 0.0
  {
    var n := Floored(configured, default_);
    Limit(n as real / 60.0, n)
  }

  datatype Config = Config(statusPerMin: int, pairPerMin: int, guardedPerSec: int)

  function TierLimit(cfg: Config, tier: Tier): Limit {
    match tier
    case StatusTier => PerMinute(cfg.statusPerMin, DEFAULT_STATUS_PER_MIN)
    case PairTier => PerMinute(cfg.pairPerMin, DEFAULT_PAIR_PER_MIN)
  }

  /** The guarded tier is per device and per second, with twice that as its burst. */
  function DeviceLimit(cfg: Config): Limit {
    var n := Floored(cfg.guardedPerSec, DEFAULT_GUARDED_PER_SEC);
    Limit(n as real, 2 * n)
  }

  // -------------------------------------------------- the limits, in admissions

  /** What the operator configured for a tier, in requests per minute. */
  function Configured(cfg: Config, tier: Tier): int {
    match tier
    case StatusTier => if cfg.statusPerMin < 1 then 30 else cfg.statusPerMin
    case PairTier => if cfg.pairPerMin < 1 then 5 else cfg.pairPerMin
  }

  lemma TierLimitIs(cfg: Config, tier: Tier)
    ensures var n := Configured(cfg, tier);
            n >= 1 && TierLimit(cfg, tier).burst == n && TierLimit(cfg, tier).rate == n as real / 60.0
  {
  }

  /**
   * With n requests a minute configured, a tier admits one address at most n + n / 60 * T times in
   * any window of T seconds of any run.
   */
  lemma TierAtMost(cfg: Config, tier: Tier, lim: Limit, before: seq<Call>, window: seq<Call>, ip: Key,
                   start: real, from: real, to: real, most: real)
    requires lim == TierLimit(cfg, tier) && Timed(before, start, from) && Timed(window, from, to)
    requires most == Configured(cfg, tier) as real + lim.rate * (to - from)
    ensures lim.rate == Configured(cfg, tier) as real / 60.0
    ensures AdmitsAtMost(lim, MAX_KEYS, before, window, ip, most)
  {
    TierLimitIs(cfg, tier);
    AdmissionsBound(lim, MAX_KEYS, before, window, ip, start, from, to, most);
  }

  lemma MinuteFills(lim: Limit, n: nat, wait: real)
    requires lim.burst == n && lim.rate == n as real / 60.0 && wait >= 60.0
    ensures lim.rate * wait >= lim.burst as real
  {
    MulMonotone(lim.rate, 60.0, wait);
  }

  lemma TwoSecondsFill(lim: Limit, n: nat, wait: real)
    requires lim.burst == 2 * n && lim.rate == n as real && wait >= 2.0
    ensures lim.rate * wait >= lim.burst as real
  {
    MulMonotone(lim.rate, 2.0, wait);
  }

  /**
   * And no fewer: an address silent for sixty seconds may send n requests in a row, at whatever
   * pace and whatever other addresses do meanwhile, and each that is keyed passes.
   */
  lemma TierAtLeast(cfg: Config, tier: Tier, lim: Limit, m: Buckets, ip: Key, now: real, silence: seq<Call>,
                    calls: seq<Call>, from: real, to: real)
    requires lim == TierLimit(cfg, tier) && SoundAt(lim, m, now) && from >= now + 60.0
    requires Timed(silence, now, from) && forall i :: 0 <= i < |silence| ==> silence[i].key != ip
    requires Timed(calls, from, to) && CallsOf(calls, ip) <= Configured(cfg, tier)
    ensures
      var answers := Serve(lim, MAX_KEYS, Serve(lim, MAX_KEYS, m, silence).0, calls).1;
      && |answers| == |calls|
      && forall i :: 0 <= i < |calls| && calls[i].key == ip && answers[i].keyed ==> answers[i].allowed
  {
    TierLimitIs(cfg, tier);
    MinuteFills(lim, Configured(cfg, tier), from - now);
    BurstAfterSilence(lim, MAX_KEYS, m, ip, now, silence, calls, from, to);
  }

  /** Requests per second of the guarded tier. */
  function Guarded(cfg: Config): int { if cfg.guardedPerSec < 1 then 20 else cfg.guardedPerSec }

  lemma DeviceLimitIs(cfg: Config)
    ensures Guarded(cfg) >= 1
    ensures DeviceLimit(cfg).burst == 2 * Guarded(cfg) && DeviceLimit(cfg).rate == Guarded(cfg) as real
  {
  }

  /** A paired device is served at most 2n + n * T requests in T seconds, n being its tier's rate. */
  lemma DeviceAtMost(cfg: Config, lim: Limit, before: seq<Call>, window: seq<Call>, device: Key,
                     start: real, from: real, to: real, most: real)
    requires lim == DeviceLimit(cfg) && Timed(before, start, from) && Timed(window, from, to)
    requires most == (2 * Guarded(cfg)) as real + lim.rate * (to - from)
    ensures lim.rate == Guarded(cfg) as real
    ensures AdmitsAtMost(lim, MAX_KEYS, before, window, device, most)
  {
    DeviceLimitIs(cfg);
    AdmissionsBound(lim, MAX_KEYS, before, window, device, start, from, to, most);
  }

  /** And 2n in a row after two silent seconds: a first screen's worth of requests. */
  lemma DeviceAtLeast(cfg: Config, lim: Limit, m: Buckets, device: Key, now: real, silence: seq<Call>,
                      calls: seq<Call>, from: real, to: real)
    requires lim == DeviceLimit(cfg) && SoundAt(lim, m, now) && from >= now + 2.0
    requires Timed(silence, now, from) && forall i :: 0 <= i < |silence| ==> silence[i].key != device
    requires Timed(calls, from, to) && CallsOf(calls, device) <= 2 * Guarded(cfg)
    ensures
      var answers := Serve(lim, MAX_KEYS, Serve(lim, MAX_KEYS, m, silence).0, calls).1;
      && |answers| == |calls|
      && forall i :: 0 <= i < |calls| && calls[i].key == device && answers[i].keyed ==> answers[i].allowed
  {
    DeviceLimitIs(cfg);
    TwoSecondsFill(lim, Guarded(cfg), from - now);
    BurstAfterSilence(lim, MAX_KEYS, m, device, now, silence, calls, from, to);
  }

  // ------------------------------------------------------------ the two checks

  /** withIPLimit's decision: the registry answers a keyed address, the global bucket any other. */
  function IpCheck(lim: Limit, global: Bucket, reg: Buckets, ip: Key, now: real): (Bucket, Buckets, bool) {
    var (reg', a) := AllowKey(lim, MAX_KEYS, reg, ip, now);
    if a.keyed then (global, reg', a.allowed)
    else
      var (global', ok) := AllowOne(GLOBAL, global, now);
      (global', reg', ok)
  }

  /**
   * What the check answers, in tokens: a held or admitted address by its own bucket alone, leaving
   * the global one as it was; any other exactly when the global bucket has a token, which it pays.
   */
  lemma IpCheckMeans(lim: Limit, global: Bucket, reg: Buckets, ip: Key, now: real)
    requires SoundAt(lim, reg, now) && Sound(GLOBAL, global, now) && |reg| <= 4096
    ensures
      var (global', reg', allowed) := IpCheck(lim, global, reg, ip, now);
      && |reg'| <= 4096 && (|reg| < 4096 ==> ip in reg')
      && SoundAt(lim, reg', now) && Sound(GLOBAL, global', now)
      && (ip in reg' ==> global' == global && (allowed <==> lim.burst >= 1 && Level(lim, reg, ip, now) >= 1.0))
      && (ip in reg' && allowed ==> Level(lim, reg', ip, now) == Level(lim, reg, ip, now) - 1.0)
      && (ip !in reg' ==> (allowed <==> TokensAt(GLOBAL, global, now) >= 1.0))
      && (ip !in reg' ==>
            TokensAt(GLOBAL, global', now) == TokensAt(GLOBAL, global, now) - if allowed then 1.0 else 0.0)
  {
    StepLevels(lim, MAX_KEYS, reg, ip, now);
    KeyedIsHeld(lim, MAX_KEYS, reg, ip, now);
    StepBounded(lim, MAX_KEYS, reg, ip, now);
    ChargeOne(GLOBAL, global, now);
  }

  class UnauthLimits {
    var global: Bucket
    const status: Registry
    const pair: Registry

    ghost predicate Valid()
      reads this
    {
      status != pair && status.maxKeys == MAX_KEYS && pair.maxKeys == MAX_KEYS
    }

    constructor (cfg: Config, now: real)
      ensures Valid() && fresh(status) && fresh(pair)
      ensures global == FullBucket(GLOBAL, now) && status.buckets == map[] && pair.buckets == map[]
      ensures status.limit == TierLimit(cfg, StatusTier) && pair.limit == TierLimit(cfg, PairTier)
    {
      global := FullBucket(GLOBAL, now);
      status := new Registry(PerMinute(cfg.statusPerMin, DEFAULT_STATUS_PER_MIN), MAX_KEYS);
      pair := new Registry(PerMinute(cfg.pairPerMin, DEFAULT_PAIR_PER_MIN), MAX_KEYS);
    }

    method WithGlobalUnauthLimit(now: real) returns (allowed: bool)
      modifies this`global
      ensures (global, allowed) == AllowOne(GLOBAL, old(global), now)
    {
      var (b, ok) := AllowOne(GLOBAL, global, now);
      global, allowed := b, ok;
    }

    method WithIPLimit(tier: Tier, ip: Key, now: real) returns (allowed: bool)
      requires Valid()
      modifies this`global, status`buckets, pair`buckets
      ensures var reg := if tier.StatusTier? then status else pair;
              var (g, b, a) := IpCheck(reg.limit, old(global), old(reg.buckets), ip, now);
              global == g && reg.buckets == b && allowed == a
      ensures tier.StatusTier? ==> unchanged(pair)
      ensures tier.PairTier? ==> unchanged(status)
    {
      var reg := if tier.StatusTier? then status else pair;
      var keyed;
      allowed, keyed := reg.Allow(ip, now);
      if !keyed {
        allowed := WithGlobalUnauthLimit(now);
      }
    }
  }

  // --------------------------------------------------------- concurrent requests

  /**
   * The tiers with any number of requests in flight: `between` have passed the global check and
   * not yet reached their registry, `falling` were unkeyed there and not yet back at the global
   * bucket; `passed` reached a handler, `fellBack` of them unkeyed.
   */
  datatype Tiers = Tiers(global: Bucket, status: Buckets, pair: Buckets,
                         between: nat, falling: nat, passed: nat, fellBack: nat)

  /** One lock section of one request; those of different requests interleave freely. */
  datatype Check = Enter(now: real) | ByIp(tier: Tier, ip: Key, now: real) | FallBack(now: real)

  predicate CanCheck(s: Tiers, c: Check) {
    (c.ByIp? ==> s.between > 0) && (c.FallBack? ==> s.falling > 0)
  }

  function Apply(cfg: Config, s: Tiers, c: Check): Tiers
    requires CanCheck(s, c)
  {
    match c
    case Enter(now) =>
      var (g, ok) := AllowOne(GLOBAL, s.global, now);
      s.(global := g, between := if ok then s.between + 1 else s.between)
    case ByIp(tier, ip, now) =>
      var (reg, a) := AllowKey(TierLimit(cfg, tier), MAX_KEYS, if tier.StatusTier? then s.status else s.pair, ip, now);
      var left := if tier.StatusTier? then s.(status := reg, between := s.between - 1)
                  else s.(pair := reg, between := s.between - 1);
      if !a.keyed then left.(falling := s.falling + 1)
      else left.(passed := s.passed + if a.allowed then 1 else 0)
    case FallBack(now) =>
      var (g, ok) := AllowOne(GLOBAL, s.global, now);
      s.(global := g, falling := s.falling - 1,
         passed := s.passed + (if ok then 1 else 0), fellBack := s.fellBack + if ok then 1 else 0)
  }

  /** A run whose checks carry non-decreasing times inside [from, to]. */
  predicate Legal(cfg: Config, s: Tiers, checks: seq<Check>, from: real, to: real)
    decreases |checks|
  {
    if checks == [] then from <= to
    else
      && from <= checks[0].now
      && CanCheck(s, checks[0])
      && Legal(cfg, Apply(cfg, s, checks[0]), checks[1..], checks[0].now, to)
  }

  function After(cfg: Config, s: Tiers, checks: seq<Check>, from: real, to: real): Tiers
    requires Legal(cfg, s, checks, from, to)
    decreases |checks|
  {
    if checks == [] then s else After(cfg, Apply(cfg, s, checks[0]), checks[1..], checks[0].now, to)
  }

  /** Every request in flight or served has paid the global bucket once, and once more if unkeyed. */
  function Paid(s: Tiers): nat { s.between + s.falling + s.passed + s.fellBack }

  lemma CheckPays(cfg: Config, s: Tiers, c: Check)
    requires CanCheck(s, c) && Sound(GLOBAL, s.global, c.now)
    ensures var s' := Apply(cfg, s, c);
            && Sound(GLOBAL, s'.global, c.now)
            && Paid(s') as real + TokensAt(GLOBAL, s'.global, c.now)
                 <= Paid(s) as real + TokensAt(GLOBAL, s.global, c.now)
  {
    if !c.ByIp? { ChargeOne(GLOBAL, s.global, c.now); }
  }

  lemma {:induction false} RunPays(cfg: Config, s: Tiers, checks: seq<Check>, from: real, to: real)
    requires Legal(cfg, s, checks, from, to) && Sound(GLOBAL, s.global, from)
    ensures var end := After(cfg, s, checks, from, to);
            && from <= to && Sound(GLOBAL, end.global, to)
            && Paid(end) as real + TokensAt(GLOBAL, end.global, to)
                 <= Paid(s) as real + TokensAt(GLOBAL, s.global, from) + 50.0 * (to - from)
    decreases |checks|
  {
    if checks == [] {
      Refill(GLOBAL, s.global, from, to);
    } else {
      var now := checks[0].now;
      Refill(GLOBAL, s.global, from, now);
      CheckPays(cfg, s, checks[0]);
      RunPays(cfg, Apply(cfg, s, checks[0]), checks[1..], now, to);
    }
  }

  /** A request's registry check, seen from outside: it is its own tier's, and what it answers counts. */
  lemma ByIpMeans(cfg: Config, s: Tiers, tier: Tier, ip: Key, now: real)
    requires s.between > 0 && SoundAt(TierLimit(cfg, tier), if tier.StatusTier? then s.status else s.pair, now)
    ensures
      var s', lim := Apply(cfg, s, ByIp(tier, ip, now)), TierLimit(cfg, tier);
      var reg := if tier.StatusTier? then s.status else s.pair;
      var reg' := if tier.StatusTier? then s'.status else s'.pair;
      && (if tier.StatusTier? then s'.pair == s.pair else s'.status == s.status) && s'.global == s.global
      && s'.between == s.between - 1 && s'.fellBack == s.fellBack
      && s'.falling == s.falling + (if ip in reg' then 0 else 1)
      && s'.passed == s.passed + (if ip in reg' && lim.burst >= 1 && Level(lim, reg, ip, now) >= 1.0 then 1 else 0)
      && Level(lim, reg', ip, now) == Level(lim, reg, ip, now) - (s'.passed - s.passed) as real
  {
    var reg := if tier.StatusTier? then s.status else s.pair;
    StepLevels(TierLimit(cfg, tier), MAX_KEYS, reg, ip, now);
    KeyedIsHeld(TierLimit(cfg, tier), MAX_KEYS, reg, ip, now);
  }

  /** While the global bucket has a token for each, no request is turned away at the door. */
  lemma {:induction false} AllEnter(cfg: Config, s: Tiers, checks: seq<Check>, from: real, to: real)
    requires Legal(cfg, s, checks, from, to) && Sound(GLOBAL, s.global, from)
    requires forall i :: 0 <= i < |checks| ==> checks[i].Enter?
    requires |checks| as real <= TokensAt(GLOBAL, s.global, from)
    ensures After(cfg, s, checks, from, to).between == s.between + |checks|
    decreases |checks|
  {
    if checks != [] {
      var now := checks[0].now;
      Refill(GLOBAL, s.global, from, now);
      ChargeOne(GLOBAL, s.global, now);
      AllEnter(cfg, Apply(cfg, s, checks[0]), checks[1..], now, to);
    }
  }

  /** That is a hundred requests at once, on a fresh server or after two silent seconds. */
  lemma HundredAtOnce(cfg: Config, s: Tiers, checks: seq<Check>, now: real, from: real, to: real)
    requires s == Fresh(from) || (Sound(GLOBAL, s.global, now) && from >= now + 2.0)
    requires Legal(cfg, s, checks, from, to) && |checks| <= 100
    requires forall i :: 0 <= i < |checks| ==> checks[i].Enter?
    ensures After(cfg, s, checks, from, to).between == s.between + |checks|
  {
    AllEnter(cfg, s, checks, from, to);
  }

  function Fresh(now: real): Tiers { Tiers(FullBucket(GLOBAL, now), map[], map[], 0, 0, 0, 0) }

  /**
   * The unauthenticated surface in aggregate: whatever the addresses, the tiers and the
   * interleaving, at most 100 + 50 * (to - from) requests reach a handler, and each that got there
   * without a bucket of its own used up two of that allowance.
   */
  lemma PreAuthBound(cfg: Config, checks: seq<Check>, from: real, to: real)
    requires Legal(cfg, Fresh(from), checks, from, to)
    ensures var end := After(cfg, Fresh(from), checks, from, to);
            (end.passed + end.fellBack) as real <= 100.0 + 50.0 * (to - from)
  {
    RunPays(cfg, Fresh(from), checks, from, to);
    Refill(GLOBAL, Fresh(from).global, from, from);
    var end := After(cfg, Fresh(from), checks, from, to);
    Refill(GLOBAL, end.global, to, to);
  }

  /** In any later window the same bound holds beside the requests already past the global check. */
  lemma PreAuthWindow(cfg: Config, s: Tiers, checks: seq<Check>, from: real, to: real)
    requires Legal(cfg, s, checks, from, to) && Sound(GLOBAL, s.global, from)
    ensures var end := After(cfg, s, checks, from, to);
            (end.passed - s.passed) as real + (end.fellBack - s.fellBack) as real
              <= (s.between + s.falling) as real + 100.0 + 50.0 * (to - from)
  {
    RunPays(cfg, s, checks, from, to);
    Refill(GLOBAL, s.global, from, from);
    var end := After(cfg, s, checks, from, to);
    Refill(GLOBAL, end.global, to, to);
  }
}
