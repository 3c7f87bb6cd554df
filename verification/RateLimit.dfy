/**
 * The token bucket and the bounded registry of buckets
 * (internal/ratelimit/registry.go).
 */
module RateLimit {
  type Key = string

  datatype Limit = Limit(rate: real, burst: nat)

  ghost predicate ValidLimit(lim: Limit) { lim.rate >= 0.0 }

  datatype Bucket = Bucket(tokens: real, last: real)

  // ------------------------------------------------------------- one bucket

  /** rate.Limiter.TokensAt: refilled at the rate since `last`, capped at the burst. */
  function TokensAt(lim: Limit, b: Bucket, now: real): real {
    var elapsed := if now < b.last then 0.0 else now - b.last;
    var tokens := b.tokens + lim.rate * elapsed;
    if tokens > lim.burst as real then lim.burst as real else tokens
  }

  /** rate.Limiter.AllowN(now, 1): a refusal takes nothing. */
  function AllowOne(lim: Limit, b: Bucket, now: real): (Bucket, bool) {
    var tokens := TokensAt(lim, b, now) - 1.0;
    if lim.burst >= 1 && tokens >= 0.0 then (Bucket(tokens, now), true) else (b, false)
  }

  function FullBucket(lim: Limit, now: real): Bucket { Bucket(lim.burst as real, now) }

  /** The bucket holds between nothing and its burst, and was last charged in the past. */
  ghost predicate Sound(lim: Limit, b: Bucket, now: real) {
    0.0 <= b.tokens <= lim.burst as real && b.last <= now
  }

  lemma MulMonotone(r: real, a: real, b: real)
    requires r >= 0.0 && a <= b
    ensures r * a <= r * b
  {
  }

  lemma MulSplit(r: real, a: real, b: real)
    ensures r * (a + b) == r * a + r * b
  {
  }

  /** Between two charges a bucket gains at most what its rate gives, and never loses. */
  lemma Refill(lim: Limit, b: Bucket, t: real, u: real)
    requires ValidLimit(lim) && Sound(lim, b, t) && t <= u
    ensures 0.0 <= TokensAt(lim, b, t) <= TokensAt(lim, b, u) <= TokensAt(lim, b, t) + lim.rate * (u - t)
    ensures TokensAt(lim, b, u) <= lim.burst as real
  {
    MulMonotone(lim.rate, 0.0, t - b.last);
    MulMonotone(lim.rate, 0.0, u - t);
    MulSplit(lim.rate, t - b.last, u - t);
    assert (t - b.last) + (u - t) == u - b.last;
  }

  // -------------------------------------------------------------- the registry

  type Buckets = map<Key, Bucket>

  /** sweepIdleLocked: only a bucket that has refilled completely is deleted. */
  function Sweep(lim: Limit, m: Buckets, now: real): Buckets {
    map key | key in m && TokensAt(lim, m[key], now) < lim.burst as real :: m[key]
  }

  datatype Answer = Answer(allowed: bool, keyed: bool)

  function AllowKey(lim: Limit, maxKeys: int, m: Buckets, key: Key, now: real): (Buckets, Answer) {
    if key in m then
      var (b, ok) := AllowOne(lim, m[key], now);
      (m[key := b], Answer(ok, true))
    else
      var swept := if |m| >= maxKeys then Sweep(lim, m, now) else m;
      if |swept| >= maxKeys then (swept, Answer(false, false))
      else
        var (b, ok) := AllowOne(lim, FullBucket(lim, now), now);
        (swept[key := b], Answer(ok, true))
  }

  class Registry {
    var buckets: Buckets
    const limit: Limit
    const maxKeys: int

    constructor (limit: Limit, maxKeys: int)
      ensures this.limit == limit && this.maxKeys == maxKeys && buckets == map[]
    {
      this.limit, this.maxKeys := limit, maxKeys;
      buckets := map[];
    }

    method SweepIdle(now: real)
      modifies this`buckets
      ensures buckets == Sweep(limit, old(buckets), now)
    {
      var rem := buckets.Keys;
      while rem != {}
        invariant rem <= buckets.Keys <= old(buckets).Keys
        invariant forall key :: key in buckets ==> buckets[key] == old(buckets)[key]
        invariant forall key :: key in old(buckets) && key !in rem ==>
                    (key in buckets <==> TokensAt(limit, old(buckets)[key], now) < limit.burst as real)
        decreases rem
      {
        var key :| key in rem;
        if TokensAt(limit, buckets[key], now) >= limit.burst as real {
          buckets := buckets - {key};
        }
        rem := rem - {key};
      }
      assert buckets.Keys == Sweep(limit, old(buckets), now).Keys;
    }

    method Allow(key: Key, now: real) returns (allowed: bool, keyed: bool)
      modifies this`buckets
      ensures (buckets, Answer(allowed, keyed)) == AllowKey(limit, maxKeys, old(buckets), key, now)
    {
      if key in buckets {
        var (b, ok) := AllowOne(limit, buckets[key], now);
        buckets := buckets[key := b];
        return ok, true;
      }
      if |buckets| >= maxKeys {
        SweepIdle(now);
      }
      if |buckets| >= maxKeys {
        return false, false;
      }
      var (b, ok) := AllowOne(limit, FullBucket(limit, now), now);
      buckets := buckets[key := b];
      return ok, true;
    }
  }

  // -------------------------------------------- refining an unbounded registry

  /** What a key could be served at `t`: a key without a bucket is as good as full. */
  ghost function Level(lim: Limit, m: Buckets, key: Key, t: real): real {
    if key in m then TokensAt(lim, m[key], t) else lim.burst as real
  }

  ghost predicate SoundAt(lim: Limit, m: Buckets, now: real) {
    ValidLimit(lim) && forall key :: key in m ==> Sound(lim, m[key], now)
  }

  /** From `now` on nobody can tell the two registries' buckets apart. */
  ghost predicate SameFrom(lim: Limit, m: Buckets, u: Buckets, now: real) {
    forall key, t :: t >= now ==> Level(lim, m, key, t) == Level(lim, u, key, t)
  }

  /** The registry that never evicts, charged only when `keyed`. */
  function Unbounded(lim: Limit, u: Buckets, key: Key, now: real): (Buckets, bool) {
    var (b, ok) := AllowOne(lim, if key in u then u[key] else FullBucket(lim, now), now);
    (u[key := b], ok)
  }

  /** Sweeping is invisible: what it deletes was full and would have stayed full. */
  lemma SweepInvisible(lim: Limit, m: Buckets, now: real)
    requires SoundAt(lim, m, now)
    ensures SameFrom(lim, Sweep(lim, m, now), m, now)
    ensures SoundAt(lim, Sweep(lim, m, now), now)
  {
    forall key, t | t >= now
      ensures Level(lim, Sweep(lim, m, now), key, t) == Level(lim, m, key, t)
    {
      if key in m { Refill(lim, m[key], now, t); }
    }
  }

  /** A charge succeeds exactly when a whole token is there, and a refusal leaves the bucket alone. */
  lemma ChargeOne(lim: Limit, b: Bucket, now: real)
    requires ValidLimit(lim) && Sound(lim, b, now)
    ensures var (b', ok) := AllowOne(lim, b, now);
            && Sound(lim, b', now)
            && (ok <==> lim.burst >= 1 && TokensAt(lim, b, now) >= 1.0)
            && (if ok then TokensAt(lim, b', now) == TokensAt(lim, b, now) - 1.0 else b' == b)
  {
    Refill(lim, b, now, now);
    assert lim.rate * (now - now) == 0.0;
  }

  lemma FullStaysFull(lim: Limit, now: real, t: real)
    requires ValidLimit(lim) && t >= now
    ensures Sound(lim, FullBucket(lim, now), now)
    ensures TokensAt(lim, FullBucket(lim, now), t) == lim.burst as real
  {
    MulMonotone(lim.rate, 0.0, t - now);
  }

  /** Charging an entry whose level was the key's own touches no other level. */
  lemma ChargeEntry(lim: Limit, m: Buckets, key: Key, b: Bucket, now: real)
    requires SoundAt(lim, m, now) && Sound(lim, b, now)
    requires forall t :: t >= now ==> Level(lim, m, key, t) == TokensAt(lim, b, t)
    ensures var (b', ok) := AllowOne(lim, b, now);
            var m' := m[key := b'];
            && SoundAt(lim, m', now)
            && (forall k, t :: t >= now && k != key ==> Level(lim, m', k, t) == Level(lim, m, k, t))
            && (ok ==> Level(lim, m', key, now) == Level(lim, m, key, now) - 1.0)
            && (!ok ==> SameFrom(lim, m', m, now))
            && (ok <==> lim.burst >= 1 && Level(lim, m, key, now) >= 1.0)
  {
    ChargeOne(lim, b, now);
  }

  /**
   * One call, seen through the levels: other keys cannot tell it happened (whatever it evicted),
   * a keyed answer is decided by the key's own level, and only an admission takes a token.
   */
  lemma StepLevels(lim: Limit, maxKeys: int, m: Buckets, key: Key, now: real)
    requires SoundAt(lim, m, now)
    ensures var (m', a) := AllowKey(lim, maxKeys, m, key, now);
            && SoundAt(lim, m', now)
            && (forall k, t :: t >= now && k != key ==> Level(lim, m', k, t) == Level(lim, m, k, t))
            && (a.allowed ==> a.keyed && Level(lim, m', key, now) == Level(lim, m, key, now) - 1.0)
            && (!a.allowed ==> SameFrom(lim, m', m, now))
            && (a.keyed ==> (a.allowed <==> lim.burst >= 1 && Level(lim, m, key, now) >= 1.0))
  {
    if key in m {
      ChargeEntry(lim, m, key, m[key], now);
    } else {
      SweepInvisible(lim, m, now);
      var base := if |m| >= maxKeys then Sweep(lim, m, now) else m;
      assert SameFrom(lim, base, m, now);
      forall t | t >= now
        ensures Level(lim, base, key, t) == TokensAt(lim, FullBucket(lim, now), t)
      {
        FullStaysFull(lim, now, t);
      }
      FullStaysFull(lim, now, now);
      ChargeEntry(lim, base, key, FullBucket(lim, now), now);
    }
  }

  /** What the registry that keeps everything does to the levels. */
  lemma UnboundedLevels(lim: Limit, u: Buckets, key: Key, now: real)
    requires SoundAt(lim, u, now)
    ensures var (u', ok) := Unbounded(lim, u, key, now);
            && SoundAt(lim, u', now)
            && (forall k, t :: t >= now && k != key ==> Level(lim, u', k, t) == Level(lim, u, k, t))
            && (ok ==> key in u' && u'[key] == Bucket(Level(lim, u, key, now) - 1.0, now))
            && (!ok ==> SameFrom(lim, u', u, now))
            && (ok <==> lim.burst >= 1 && Level(lim, u, key, now) >= 1.0)
  {
    forall t | t >= now
      ensures TokensAt(lim, FullBucket(lim, now), t) == lim.burst as real
    {
      FullStaysFull(lim, now, t);
    }
    FullStaysFull(lim, now, now);
    ChargeEntry(lim, u, key, if key in u then u[key] else FullBucket(lim, now), now);
  }

  /** An admission leaves the key one token poorer than the level it had. */
  lemma AdmittedBucket(lim: Limit, maxKeys: int, m: Buckets, key: Key, now: real)
    requires ValidLimit(lim)
    ensures var (m', a) := AllowKey(lim, maxKeys, m, key, now);
            a.allowed ==> key in m' && m'[key] == Bucket(Level(lim, m, key, now) - 1.0, now)
  {
    FullStaysFull(lim, now, now);
  }

  /** The same call on the registry that keeps everything gives a keyed caller the same answer. */
  lemma StepRefines(lim: Limit, maxKeys: int, m: Buckets, u: Buckets, key: Key, now: real)
    requires SoundAt(lim, m, now) && SoundAt(lim, u, now) && SameFrom(lim, m, u, now)
    ensures var (m', a) := AllowKey(lim, maxKeys, m, key, now);
            var (u', ok) := Unbounded(lim, u, key, now);
            && SoundAt(lim, m', now)
            && (a.keyed ==> a.allowed == ok && SoundAt(lim, u', now) && SameFrom(lim, m', u', now))
            && (!a.keyed ==> !a.allowed && SameFrom(lim, m', u, now))
  {
    StepLevels(lim, maxKeys, m, key, now);
    AdmittedBucket(lim, maxKeys, m, key, now);
    UnboundedLevels(lim, u, key, now);
    assert Level(lim, m, key, now) == Level(lim, u, key, now);
    var (m', a) := AllowKey(lim, maxKeys, m, key, now);
    var (u', ok) := Unbounded(lim, u, key, now);
    if a.allowed {
      forall k, t | t >= now
        ensures Level(lim, m', k, t) == Level(lim, u', k, t)
      {
        assert Level(lim, m, k, t) == Level(lim, u, k, t);
      }
    }
  }

  lemma PutSize(m: Buckets, key: Key, b: Bucket)
    ensures |m[key := b]| == if key in m then |m| else |m| + 1
  {
    assert m[key := b].Keys == m.Keys + {key};
  }

  lemma SweepShrinks(lim: Limit, m: Buckets, now: real)
    ensures |Sweep(lim, m, now)| <= |m|
    ensures forall k :: k in Sweep(lim, m, now) ==> k in m && TokensAt(lim, m[k], now) < lim.burst as real
    ensures forall k :: k in Sweep(lim, m, now) ==> Sweep(lim, m, now)[k] == m[k]
  {
    SubsetSize(Sweep(lim, m, now).Keys, m.Keys);
  }

  /**
   * A registry within its cap stays within it (a cap below one holds nothing), and a caller is
   * keyed exactly when its bucket is held afterwards.
   */
  lemma StepBounded(lim: Limit, maxKeys: int, m: Buckets, key: Key, now: real)
    requires |m| <= maxKeys || m == map[]
    ensures var (m', a) := AllowKey(lim, maxKeys, m, key, now);
            && (|m'| <= maxKeys || m' == map[])
            && (a.keyed <==> key in m')
  {
    SweepShrinks(lim, m, now);
    if key in m {
      PutSize(m, key, AllowOne(lim, m[key], now).0);
    } else {
      var base := if |m| >= maxKeys then Sweep(lim, m, now) else m;
      assert m == map[] ==> base == map[];
      PutSize(base, key, AllowOne(lim, FullBucket(lim, now), now).0);
    }
  }

  lemma KeyedIsHeld(lim: Limit, maxKeys: int, m: Buckets, key: Key, now: real)
    ensures AllowKey(lim, maxKeys, m, key, now).1.keyed <==> key in AllowKey(lim, maxKeys, m, key, now).0
  {
  }

  /** An unkeyed caller was turned away by a cap's worth of other keys, every one below its burst. */
  lemma UnkeyedOnlyWhenThrottled(lim: Limit, maxKeys: nat, m: Buckets, key: Key, now: real)
    requires |m| <= maxKeys && !AllowKey(lim, maxKeys, m, key, now).1.keyed
    ensures var m' := AllowKey(lim, maxKeys, m, key, now).0;
            |m'| == maxKeys && m' == m && key !in m
            && forall k :: k in m' ==> TokensAt(lim, m'[k], now) < lim.burst as real
  {
    SweepShrinks(lim, m, now);
    var swept := Sweep(lim, m, now);
    SameSize(swept.Keys, m.Keys);
  }

  lemma SameSize(a: set<Key>, b: set<Key>)
    requires a <= b && |a| >= |b|
    ensures a == b
  {
    if k :| k in b && k !in a {
      SubsetSize(a, b - {k});
    }
  }

  lemma {:induction false} SubsetSize(a: set<Key>, b: set<Key>)
    requires a <= b
    ensures |a| <= |b|
  {
    if a != {} {
      var x :| x in a;
      SubsetSize(a - {x}, b - {x});
    }
  }

  // ------------------------------------------------------------- whole runs

  datatype Call = Call(key: Key, now: real)

  /** The calls of a run carry non-decreasing times inside [from, to]. */
  predicate Timed(calls: seq<Call>, from: real, to: real)
    decreases |calls|
  {
    if calls == [] then from <= to
    else from <= calls[0].now && Timed(calls[1..], calls[0].now, to)
  }

  function Serve(lim: Limit, maxKeys: int, m: Buckets, calls: seq<Call>): (Buckets, seq<Answer>)
    decreases |calls|
  {
    if calls == [] then (m, [])
    else
      var (m', a) := AllowKey(lim, maxKeys, m, calls[0].key, calls[0].now);
      var (end, rest) := Serve(lim, maxKeys, m', calls[1..]);
      (end, [a] + rest)
  }

  /**
   * The answers of a registry that never forgets a key and is charged exactly on the calls the
   * bounded one answered as keyed (`shown`); an unkeyed call is answered no.
   */
  function ServeUnbounded(lim: Limit, u: Buckets, calls: seq<Call>, shown: seq<Answer>): seq<bool>
    requires |shown| == |calls|
    decreases |calls|
  {
    if calls == [] then []
    else if shown[0].keyed then
      var (u', ok) := Unbounded(lim, u, calls[0].key, calls[0].now);
      [ok] + ServeUnbounded(lim, u', calls[1..], shown[1..])
    else [false] + ServeUnbounded(lim, u, calls[1..], shown[1..])
  }

  function Allowed(answers: seq<Answer>): seq<bool> {
    if answers == [] then [] else [answers[0].allowed] + Allowed(answers[1..])
  }

  lemma {:induction false} ServeLength(lim: Limit, maxKeys: int, m: Buckets, calls: seq<Call>)
    ensures |Serve(lim, maxKeys, m, calls).1| == |calls|
    decreases |calls|
  {
    if calls != [] {
      ServeLength(lim, maxKeys, AllowKey(lim, maxKeys, m, calls[0].key, calls[0].now).0, calls[1..]);
    }
  }

  lemma SoundLater(lim: Limit, m: Buckets, t: real, u: real)
    requires SoundAt(lim, m, t) && t <= u
    ensures SoundAt(lim, m, u)
  {
  }

  /** Run by run, from any pair of registries nobody can tell apart. */
  lemma {:induction false} ServeRefines(lim: Limit, maxKeys: int, m: Buckets, u: Buckets, calls: seq<Call>,
                                        from: real, to: real)
    requires SoundAt(lim, m, from) && SoundAt(lim, u, from) && SameFrom(lim, m, u, from)
    requires Timed(calls, from, to)
    ensures |Serve(lim, maxKeys, m, calls).1| == |calls|
    ensures Allowed(Serve(lim, maxKeys, m, calls).1)
         == ServeUnbounded(lim, u, calls, Serve(lim, maxKeys, m, calls).1)
    decreases |calls|
  {
    ServeLength(lim, maxKeys, m, calls);
    if calls != [] {
      var now := calls[0].now;
      SoundLater(lim, m, from, now);
      SoundLater(lim, u, from, now);
      assert SameFrom(lim, m, u, now);
      StepRefines(lim, maxKeys, m, u, calls[0].key, now);
      var (m', a) := AllowKey(lim, maxKeys, m, calls[0].key, now);
      var u' := if a.keyed then Unbounded(lim, u, calls[0].key, now).0 else u;
      ServeRefines(lim, maxKeys, m', u', calls[1..], now, to);
      var rest := Serve(lim, maxKeys, m', calls[1..]).1;
      assert Serve(lim, maxKeys, m, calls).1 == [a] + rest;
      assert ([a] + rest)[1..] == rest;
    }
  }

  /** The bounded registry is the unbounded one, whatever it evicts on the way. */
  lemma EvictionRefines(lim: Limit, maxKeys: int, calls: seq<Call>, from: real, to: real)
    requires ValidLimit(lim) && Timed(calls, from, to)
    ensures |Serve(lim, maxKeys, map[], calls).1| == |calls|
    ensures Allowed(Serve(lim, maxKeys, map[], calls).1)
         == ServeUnbounded(lim, map[], calls, Serve(lim, maxKeys, map[], calls).1)
  {
    ServeRefines(lim, maxKeys, map[], map[], calls, from, to);
  }

  lemma {:induction false} ServeBounded(lim: Limit, maxKeys: int, m: Buckets, calls: seq<Call>)
    requires |m| <= maxKeys || m == map[]
    ensures |Serve(lim, maxKeys, m, calls).0| <= maxKeys || Serve(lim, maxKeys, m, calls).0 == map[]
    decreases |calls|
  {
    if calls != [] {
      StepBounded(lim, maxKeys, m, calls[0].key, calls[0].now);
      ServeBounded(lim, maxKeys, AllowKey(lim, maxKeys, m, calls[0].key, calls[0].now).0, calls[1..]);
    }
  }

  // ------------------------------------------------------------- rate bound

  /** How many of the run's calls for `key` were admitted. */
  function Admitted(calls: seq<Call>, answers: seq<Answer>, key: Key): nat
    requires |calls| == |answers|
    decreases |calls|
  {
    if calls == [] then 0
    else (if calls[0].key == key && answers[0].allowed then 1 else 0) + Admitted(calls[1..], answers[1..], key)
  }

  lemma LevelGrows(lim: Limit, m: Buckets, key: Key, t: real, u: real)
    requires SoundAt(lim, m, t) && t <= u
    ensures 0.0 <= Level(lim, m, key, t) <= Level(lim, m, key, u) <= Level(lim, m, key, t) + lim.rate * (u - t)
    ensures Level(lim, m, key, u) <= lim.burst as real
  {
    MulMonotone(lim.rate, 0.0, u - t);
    if key in m { Refill(lim, m[key], t, u); }
  }

  /** Tokens are conserved: what a key was served, it had or was given by its rate. */
  lemma {:induction false} TokensConserved(lim: Limit, maxKeys: int, m: Buckets, calls: seq<Call>, key: Key,
                                           from: real, to: real)
    requires SoundAt(lim, m, from) && Timed(calls, from, to)
    ensures |Serve(lim, maxKeys, m, calls).1| == |calls|
    ensures SoundAt(lim, Serve(lim, maxKeys, m, calls).0, to) && from <= to
    ensures Admitted(calls, Serve(lim, maxKeys, m, calls).1, key) as real
            + Level(lim, Serve(lim, maxKeys, m, calls).0, key, to)
         <= Level(lim, m, key, from) + lim.rate * (to - from)
    decreases |calls|
  {
    if calls == [] {
      LevelGrows(lim, m, key, from, to);
    } else {
      var now := calls[0].now;
      LevelGrows(lim, m, key, from, now);
      SoundLater(lim, m, from, now);
      StepLevels(lim, maxKeys, m, calls[0].key, now);
      var (m', a) := AllowKey(lim, maxKeys, m, calls[0].key, now);
      TokensConserved(lim, maxKeys, m', calls[1..], key, now, to);
      var rest := Serve(lim, maxKeys, m', calls[1..]).1;
      assert Serve(lim, maxKeys, m, calls).1 == [a] + rest;
      assert ([a] + rest)[1..] == rest;
      MulSplit(lim.rate, now - from, to - now);
      assert (now - from) + (to - now) == to - from;
    }
  }

  /**
   * In any window [from, to] of any run, a key is admitted at most burst + rate * (to - from)
   * times, also when it was swept and recreated inside the window.
   */
  lemma RateBound(lim: Limit, maxKeys: int, before: seq<Call>, window: seq<Call>, key: Key,
                  start: real, from: real, to: real)
    requires ValidLimit(lim) && Timed(before, start, from) && Timed(window, from, to)
    ensures var m := Serve(lim, maxKeys, map[], before).0;
            && |Serve(lim, maxKeys, m, window).1| == |window|
            && Admitted(window, Serve(lim, maxKeys, m, window).1, key) as real
                 <= lim.burst as real + lim.rate * (to - from)
  {
    TokensConserved(lim, maxKeys, map[], before, key, start, from);
    var m := Serve(lim, maxKeys, map[], before).0;
    TokensConserved(lim, maxKeys, m, window, key, from, to);
    LevelGrows(lim, m, key, from, from);
    LevelGrows(lim, Serve(lim, maxKeys, m, window).0, key, to, to);
  }

  /** Of the window's calls, no more than `most` were admitted for the key. */
  ghost predicate AdmitsAtMost(lim: Limit, maxKeys: int, before: seq<Call>, window: seq<Call>, key: Key, most: real) {
    var answers := Serve(lim, maxKeys, Serve(lim, maxKeys, map[], before).0, window).1;
    |answers| == |window| && Admitted(window, answers, key) as real <= most
  }

  /** The rate bound once more, for a limit whose numbers are known by other names. */
  lemma AdmissionsBound(lim: Limit, maxKeys: int, before: seq<Call>, window: seq<Call>, key: Key,
                        start: real, from: real, to: real, most: real)
    requires ValidLimit(lim) && most == lim.burst as real + lim.rate * (to - from)
    requires Timed(before, start, from) && Timed(window, from, to)
    ensures AdmitsAtMost(lim, maxKeys, before, window, key, most)
  {
    RateBound(lim, maxKeys, before, window, key, start, from, to);
  }

  // ------------------------------------------------------------- Retry-After

  function Ceil(x: real): int { -((-x).Floor) }

  /** tooManyRequests: ceil(1/rate) whole seconds, at least one. */
  function RetryAfter(rate: real): int
    requires rate > 0.0
  {
    if Ceil(1.0 / rate) < 1 then 1 else Ceil(1.0 / rate)
  }

  lemma RetryAfterRefills(rate: real)
    requires rate > 0.0
    ensures RetryAfter(rate) >= 1 && rate * RetryAfter(rate) as real >= 1.0
  {
    var wait := 1.0 / rate;
    assert RetryAfter(rate) as real >= wait;
    MulMonotone(rate, wait, RetryAfter(rate) as real);
    assert rate * wait == 1.0;
  }

  /** And no shorter whole number of seconds would do. */
  lemma RetryAfterLeast(rate: real, seconds: int)
    requires rate > 0.0 && seconds >= 1 && rate * seconds as real >= 1.0
    ensures RetryAfter(rate) <= seconds
  {
    DividesInto(rate, seconds as real);
    assert 1.0 / rate <= seconds as real;
  }

  lemma DividesInto(rate: real, x: real)
    requires rate > 0.0 && rate * x >= 1.0
    ensures 1.0 / rate <= x
  {
    var q := 1.0 / rate;
    assert rate * q == 1.0;
    if x < q { MulStrict(rate, x, q); }
  }

  lemma MulStrict(r: real, a: real, b: real)
    requires r > 0.0 && a < b
    ensures r * a < r * b
  {
  }

  // ------------------------------------------------------------- from below

  function CallsOf(calls: seq<Call>, key: Key): nat {
    if calls == [] then 0 else (if calls[0].key == key then 1 else 0) + CallsOf(calls[1..], key)
  }

  /**
   * A key that could be served as many tokens as it has calls coming is served every one of them
   * that is keyed, whatever the other keys do in between.
   */
  lemma {:induction false} EnoughTokens(lim: Limit, maxKeys: int, m: Buckets, calls: seq<Call>, key: Key,
                                        from: real, to: real)
    requires SoundAt(lim, m, from) && Timed(calls, from, to)
    requires Level(lim, m, key, from) >= CallsOf(calls, key) as real
    ensures |Serve(lim, maxKeys, m, calls).1| == |calls|
    ensures forall i :: 0 <= i < |calls| && calls[i].key == key && Serve(lim, maxKeys, m, calls).1[i].keyed ==>
              Serve(lim, maxKeys, m, calls).1[i].allowed
    decreases |calls|
  {
    if calls != [] {
      var now := calls[0].now;
      LevelGrows(lim, m, key, from, now);
      SoundLater(lim, m, from, now);
      StepLevels(lim, maxKeys, m, calls[0].key, now);
      var (m', a) := AllowKey(lim, maxKeys, m, calls[0].key, now);
      LevelGrows(lim, m', key, now, now);
      EnoughTokens(lim, maxKeys, m', calls[1..], key, now, to);
      var rest := Serve(lim, maxKeys, m', calls[1..]).1;
      assert Serve(lim, maxKeys, m, calls).1 == [a] + rest;
    }
  }

  /** After burst / rate silent seconds any bucket is full again. */
  lemma FullAfterSilence(lim: Limit, m: Buckets, key: Key, now: real, later: real)
    requires SoundAt(lim, m, now) && later >= now && lim.rate * (later - now) >= lim.burst as real
    ensures Level(lim, m, key, later) == lim.burst as real
  {
    if key in m { FillsUp(lim, m[key], now, later); }
  }

  lemma FillsUp(lim: Limit, b: Bucket, now: real, later: real)
    requires ValidLimit(lim) && Sound(lim, b, now) && later >= now
    requires lim.rate * (later - now) >= lim.burst as real
    ensures TokensAt(lim, b, later) == lim.burst as real
  {
    MulMonotone(lim.rate, later - now, later - b.last);
    GainedEnough(lim, b, later, lim.rate * (later - b.last), lim.burst as real);
  }

  lemma GainedEnough(lim: Limit, b: Bucket, t: real, gained: real, want: real)
    requires 0.0 <= b.tokens && b.last <= t && gained == lim.rate * (t - b.last) && want <= gained
    requires want <= lim.burst as real
    ensures TokensAt(lim, b, t) >= want && TokensAt(lim, b, t) <= lim.burst as real
  {
  }

  /** A full bucket's worth of calls after the silence that fills it, others calling all the while. */
  lemma BurstAfterSilence(lim: Limit, maxKeys: int, m: Buckets, key: Key, now: real, silence: seq<Call>,
                          calls: seq<Call>, from: real, to: real)
    requires SoundAt(lim, m, now) && from >= now && lim.rate * (from - now) >= lim.burst as real
    requires Timed(silence, now, from) && forall i :: 0 <= i < |silence| ==> silence[i].key != key
    requires Timed(calls, from, to) && CallsOf(calls, key) <= lim.burst
    ensures
      var answers := Serve(lim, maxKeys, Serve(lim, maxKeys, m, silence).0, calls).1;
      && |answers| == |calls|
      && forall i :: 0 <= i < |calls| && calls[i].key == key && answers[i].keyed ==> answers[i].allowed
  {
    OthersUnseen(lim, maxKeys, m, silence, key, now, from);
    FullAfterSilence(lim, m, key, now, from);
    EnoughTokens(lim, maxKeys, Serve(lim, maxKeys, m, silence).0, calls, key, from, to);
  }

  lemma {:induction false} OthersUnseen(lim: Limit, maxKeys: int, m: Buckets, calls: seq<Call>, key: Key,
                                        from: real, to: real)
    requires SoundAt(lim, m, from) && Timed(calls, from, to)
    requires forall i :: 0 <= i < |calls| ==> calls[i].key != key
    ensures from <= to && SoundAt(lim, Serve(lim, maxKeys, m, calls).0, to)
    ensures Level(lim, Serve(lim, maxKeys, m, calls).0, key, to) == Level(lim, m, key, to)
    decreases |calls|
  {
    if calls == [] {
      SoundLater(lim, m, from, to);
    } else {
      var now := calls[0].now;
      SoundLater(lim, m, from, now);
      StepLevels(lim, maxKeys, m, calls[0].key, now);
      assert calls[0].key != key;
      OthersUnseen(lim, maxKeys, AllowKey(lim, maxKeys, m, calls[0].key, now).0, calls[1..], key, now, to);
    }
  }

  /**
   * A caller refused at `now` that stays silent for Retry-After seconds, whatever the other keys
   * do meanwhile, is admitted by its next call when that call is keyed.
   */
  lemma RetryAfterHonoured(lim: Limit, maxKeys: int, m: Buckets, key: Key, now: real, others: seq<Call>, later: real)
    requires SoundAt(lim, m, now) && lim.rate > 0.0 && lim.burst >= 1
    requires !AllowKey(lim, maxKeys, m, key, now).1.allowed
    requires Timed(others, now, later) && forall i :: 0 <= i < |others| ==> others[i].key != key
    requires later >= now + RetryAfter(lim.rate) as real
    ensures var end := Serve(lim, maxKeys, AllowKey(lim, maxKeys, m, key, now).0, others).0;
            var a := AllowKey(lim, maxKeys, end, key, later).1;
            a.keyed ==> a.allowed
  {
    StepLevels(lim, maxKeys, m, key, now);
    var m' := AllowKey(lim, maxKeys, m, key, now).0;
    OthersUnseen(lim, maxKeys, m', others, key, now, later);
    WaitedLongEnough(lim, m', key, now, later);
    StepLevels(lim, maxKeys, Serve(lim, maxKeys, m', others).0, key, later);
  }

  lemma WaitedLongEnough(lim: Limit, m: Buckets, key: Key, now: real, later: real)
    requires SoundAt(lim, m, now) && lim.rate > 0.0 && lim.burst >= 1
    requires later >= now + RetryAfter(lim.rate) as real
    ensures Level(lim, m, key, later) >= 1.0
  {
    RetryAfterRefills(lim.rate);
    MulMonotone(lim.rate, RetryAfter(lim.rate) as real, later - now);
    if key in m { HoldsOne(lim, m[key], now, later); }
  }

  lemma HoldsOne(lim: Limit, b: Bucket, now: real, later: real)
    requires ValidLimit(lim) && lim.burst >= 1 && Sound(lim, b, now)
    requires later >= now && lim.rate * (later - now) >= 1.0
    ensures TokensAt(lim, b, later) >= 1.0
  {
    MulMonotone(lim.rate, later - now, later - b.last);
    GainedEnough(lim, b, later, lim.rate * (later - b.last), 1.0);
  }
}
