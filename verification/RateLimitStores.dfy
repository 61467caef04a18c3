// The three stores of rate-limit buckets: the HTTP API's, the gateway's own,
// and the gateway's shared one in Redis.
module RateLimitStores {
  import opened TokenBucket
  import opened ForgetfulBuckets

  predicate IsOldest(m: Buckets, key: string) {
    key in m && forall k :: k in m ==> m[key].updated <= m[k].updated
  }

  lemma OneFewer(m: Buckets, key: string)
    requires key in m
    ensures |m - {key}| == |m| - 1
  {
    assert (m - {key}).Keys == m.Keys - {key};
    assert |m.Keys - {key}| == |m.Keys| - 1;
  }

  lemma {:induction false} OldestExists(m: Buckets) returns (key: string)
    requires |m| > 0
    ensures IsOldest(m, key)
    decreases |m|
  {
    var first :| first in m;
    var others := m - {first};
    OneFewer(m, first);
    key := first;
    if |others| > 0 {
      var older := OldestExists(others);
      assert older in others;
      if m[older].updated < m[first].updated {
        key := older;
      }
    }
    forall k | k in m
      ensures m[key].updated <= m[k].updated
    {
      if k != first {
        assert k in others;
      }
    }
  }

  // Which of several equally old buckets is chosen is left open.
  method Oldest(m: Buckets) returns (oldest: string)
    requires |m| > 0
    ensures oldest in m && IsOldest(m, oldest) && |m - {oldest}| == |m| - 1
  {
    ghost var some := OldestExists(m);
    oldest :| oldest in m && IsOldest(m, oldest);
    OneFewer(m, oldest);
  }

  // A bucket had to go: the call is served from a store without one of the
  // oldest.
  ghost predicate ServedAfterEviction(limit: Limit, kept: Buckets, call: Call, after: Buckets, allowed: bool) {
    exists oldest :: IsOldest(kept, oldest) && (after, allowed) == Touch(limit, kept - {oldest}, call.key, call.at)
  }

  // A call finds what the key's bucket had plus what time added to it, at most
  // a full bucket, or a full one if the key has none; it is admitted exactly when
  // there is a token, which it takes. A refused call takes nothing.
  ghost predicate TakesOne(limit: Limit, m: Buckets, key: string, now: Time, after: Bucket, allowed: bool) {
    var full := limit.capacity as real;
    var grown := if key in m then m[key].tokens + (if now > m[key].updated then (now - m[key].updated) * limit.rate else 0.0)
                 else full;
    var tokens := if grown > full then full else grown;
    && (allowed <==> tokens >= 1.0)
    && after == Bucket(if allowed then tokens - 1.0 else tokens, now)
  }

  // Whatever else is stored was stored before.
  ghost predicate OthersKept(before: Buckets, after: Buckets, key: string) {
    forall k :: k in after && k != key ==> k in before && after[k] == before[k]
  }

  // Buckets go only to make room for the key's, and only the oldest.
  ghost predicate OnlyOldestGone(kept: Buckets, after: Buckets, key: string, maximum: nat) {
    && after.Keys <= kept.Keys + {key} && OthersKept(kept, after, key)
    && (key in kept || |kept| < maximum ==> kept.Keys <= after.Keys)
    && (forall gone, k :: gone in kept && gone !in after && k in after && k != key ==> kept[gone].updated <= kept[k].updated)
  }

  function Larger(a: real, b: real): real {
    if a >= b then a else b
  }

  lemma TouchTakesOne(limit: Limit, m: Buckets, key: string, now: Time)
    ensures var (after, allowed) := Touch(limit, m, key, now);
            && key in after && TakesOne(limit, m, key, now, after[key], allowed)
            && after.Keys == m.Keys + {key} && OthersKept(m, after, key)
  {
    if key in m {
      var elapsed := now - m[key].updated;
      assert Gain(limit.rate, elapsed) == if now > m[key].updated then (now - m[key].updated) * limit.rate else 0.0;
      hide Gain;
    }
  }

  lemma SameTaken(limit: Limit, m1: Buckets, m2: Buckets, key: string, now: Time, after: Bucket, allowed: bool)
    requires TakesOne(limit, m1, key, now, after, allowed)
    requires (key in m1 <==> key in m2) && (key in m1 ==> m1[key] == m2[key])
    ensures TakesOne(limit, m2, key, now, after, allowed)
  {
  }

  class InMemoryRateLimitStore {
    var buckets: Buckets
    const maximum: nat
    const idle: Time

    function Keeping(): Keeping {
      Purging(idle, maximum)
    }

    ghost predicate Valid()
      reads this
    {
      idle > 0.0 && maximum >= 1 && |buckets| <= maximum
    }

    constructor (maximum: nat, idle: Time)
      requires maximum >= 1 && idle > 0.0
      ensures Valid() && buckets == map[]
    {
      this.maximum, this.idle := maximum, idle;
      buckets := map[];
    }

    // The number of buckets stays within the maximum. Waiting `retryAfter`
    // seconds, or asking `remaining` times more at once, is answered by
    // WaitingIsEnough and RemainingIsExact.
    method Consume(key: string, limit: Limit, now: Time) returns (allowed: bool, retryAfter: real, remaining: int)
      requires Valid() && limit.rate > 0.0
      modifies this`buckets
      ensures Valid()
      ensures Roomy(Keeping(), old(buckets), key, now) ==>
                (buckets, allowed) == Touch(limit, Kept(Keeping(), old(buckets), key, now), key, now)
      ensures !Roomy(Keeping(), old(buckets), key, now) ==>
                ServedAfterEviction(limit, Kept(Keeping(), old(buckets), key, now), Call(key, now), buckets, allowed)
      ensures key in buckets
      ensures var kept := map k | k in old(buckets) && old(buckets)[k].updated >= now - idle :: old(buckets)[k];
              TakesOne(limit, kept, key, now, buckets[key], allowed) && OnlyOldestGone(kept, buckets, key, maximum)
      ensures allowed ==> retryAfter == 0.0 && remaining == if buckets[key].tokens >= 0.0 then buckets[key].tokens.Floor else 0
      ensures !allowed ==> remaining == 0 && retryAfter == Larger(1.0, (1.0 - buckets[key].tokens) / limit.rate)
    {
      MakeRoom(key, now);
      ghost var roomy := buckets;
      allowed, retryAfter, remaining := Spend(key, limit, now);
      TouchTakesOne(limit, roomy, key, now);
    }

    // Drop the buckets idle for too long, then the oldest one if the key still
    // needs a place.
    method MakeRoom(key: string, now: Time)
      requires Valid()
      modifies this`buckets
      ensures |buckets| <= maximum && (key in buckets || |buckets| < maximum)
      ensures var kept := Kept(Keeping(), old(buckets), key, now);
              if Roomy(Keeping(), old(buckets), key, now) then buckets == kept
              else exists oldest :: IsOldest(kept, oldest) && buckets == kept - {oldest}
    {
      var cutoff := now - idle;
      var recent := map k | k in buckets && buckets[k].updated >= cutoff :: buckets[k];
      FewerKeys(recent.Keys, buckets.Keys);
      assert |recent.Keys| == |recent| && |buckets.Keys| == |buckets|;
      assert recent == Kept(Keeping(), buckets, key, now);
      buckets := recent;
      if key !in buckets && |buckets| >= maximum {
        var oldest := Oldest(buckets);
        buckets := buckets - {oldest};
      }
    }

    method Spend(key: string, limit: Limit, now: Time) returns (allowed: bool, retryAfter: real, remaining: int)
      requires idle > 0.0 && maximum >= 1 && |buckets| <= maximum && (key in buckets || |buckets| < maximum)
      requires limit.rate > 0.0
      modifies this`buckets
      ensures Valid() && key in buckets
      ensures (buckets, allowed) == Touch(limit, old(buckets), key, now)
      ensures allowed ==> retryAfter == 0.0 && remaining == if buckets[key].tokens >= 0.0 then buckets[key].tokens.Floor else 0
      ensures !allowed ==> remaining == 0 && retryAfter == Larger(1.0, (1.0 - buckets[key].tokens) / limit.rate)
    {
      ghost var start := buckets;
      if key !in buckets {
        buckets := buckets[key := Bucket(limit.capacity as real, now)];
      }
      var bucket := buckets[key];
      var elapsed := if now - bucket.updated > 0.0 then now - bucket.updated else 0.0;
      bucket := Bucket(Min(limit.capacity as real, bucket.tokens + elapsed * limit.rate), now);
      assert bucket.tokens == Available(limit, start, key, now);
      if bucket.tokens >= 1.0 {
        bucket := bucket.(tokens := bucket.tokens - 1.0);
        allowed, retryAfter, remaining := true, 0.0, if bucket.tokens >= 0.0 then bucket.tokens.Floor else 0;
      } else {
        allowed, retryAfter, remaining := false, Larger(1.0, (1.0 - bucket.tokens) / limit.rate), 0;
      }
      buckets := buckets[key := bucket];
      assert buckets == start[key := bucket];
    }
  }

  // The `remaining` an admitted call reports is the number of further calls
  // that would be admitted at that instant, and no more.
  lemma {:induction false} RemainingIsExact(l: Limiter, m: Buckets, key: string, now: Time, remaining: nat)
    requires WellFormed(l) && JustUsed(m, key, now) && InRange(l, m) && Before(m, now)
    requires m[key].tokens.Floor == remaining
    ensures var calls := Batch(key, now, remaining + 1);
            && Answers(l, m, calls)[remaining] == false
            && forall i :: 0 <= i < remaining ==> Answers(l, m, calls)[i]
    decreases remaining
  {
    var calls := Batch(key, now, remaining + 1);
    assert calls[0] == Call(key, now) && calls[1..] == Batch(key, now, remaining);
    var (next, allowed) := Step(l, m, calls[0]);
    assert Answers(l, m, calls) == [allowed] + Answers(l, next, calls[1..]);
    assert Available(l.limits(key), m, key, now) == m[key].tokens;
    if remaining > 0 {
      StepInRange(l, m, calls[0]);
      RemainingIsExact(l, next, key, now, remaining - 1);
    }
  }

  // Where a refused caller asks again after the advised time, and nobody else
  // used the bucket, the call is admitted.
  lemma WaitingIsEnough(limit: Limit, b: Bucket, wait: Time)
    requires limit.rate > 0.0 && limit.capacity >= 1 && b.tokens < 1.0
    requires wait >= Larger(1.0, (1.0 - b.tokens) / limit.rate)
    ensures Refilled(limit, b, b.updated + wait) >= 1.0
  {
    AdmittedFrom(limit, b, wait);
  }

  // The limiter rounds the advice to whole seconds by adding 0.999 and cutting.
  function AdvisedSeconds(retryAfter: real): int {
    (retryAfter + 0.999).Floor
  }

  // A refused caller that waits the rounded time is admitted except when the
  // time needed exceeds a whole number of seconds, at least one, by less than
  // a millisecond.
  lemma RoundedAdvice(limit: Limit, b: Bucket)
    requires limit.rate > 0.0 && limit.capacity >= 1 && 0.0 <= b.tokens < 1.0
    ensures var needed := (1.0 - b.tokens) / limit.rate;
            var wait := AdvisedSeconds(Larger(1.0, needed));
            Refilled(limit, b, b.updated + wait as real) >= 1.0
            <==> needed <= 1.0 || needed == needed.Floor as real || needed - needed.Floor as real >= 0.001
  {
    var needed := (1.0 - b.tokens) / limit.rate;
    var wait := AdvisedSeconds(Larger(1.0, needed));
    hide Refilled;
    AdmittedFrom(limit, b, wait as real);
    var whole := needed.Floor;
    assert needed > 1.0 ==> wait == if needed - whole as real >= 0.001 then whole + 1 else whole;
  }

  lemma AdmittedFrom(limit: Limit, b: Bucket, wait: Time)
    requires limit.rate > 0.0 && limit.capacity >= 1 && b.tokens < 1.0 && wait > 0.0
    ensures Refilled(limit, b, b.updated + wait) >= 1.0 <==> wait >= (1.0 - b.tokens) / limit.rate
  {
    var gained := Gain(limit.rate, wait);
    assert gained == wait * limit.rate;
    Affords(1.0 - b.tokens, limit.rate, wait);
    assert gained >= 1.0 - b.tokens <==> wait >= (1.0 - b.tokens) / limit.rate;
    hide Gain;
    assert b.updated + wait - b.updated == wait;
    assert Refilled(limit, b, b.updated + wait) == Min(limit.capacity as real, b.tokens + gained);
  }

  lemma Affords(price: real, rate: real, wait: Time)
    requires rate > 0.0
    ensures wait * rate >= price <==> wait >= price / rate
  {
    var needed := price / rate;
    Quotient(price, rate);
    if wait < needed {
      Slower(rate, wait, needed);
    } else if wait > needed {
      Slower(rate, needed, wait);
    }
  }

  lemma Quotient(x: real, y: real)
    requires y > 0.0
    ensures x / y * y == x
  {
  }

  lemma Slower(rate: real, a: Time, b: Time)
    requires rate > 0.0 && a < b
    ensures a * rate < b * rate
  {
  }

  // ---------------------------------------------------------------------
  // The gateway's own buckets
  // ---------------------------------------------------------------------

  function PerMinute(capacity: nat): Limit {
    Limit(capacity, capacity as real / 60.0)
  }

  // The least recently used go first.
  ghost predicate EvictedFrom(kept: Buckets, start: Buckets) {
    && start.Keys <= kept.Keys
    && (forall k :: k in start ==> start[k] == kept[k])
    && (forall k, gone :: k in start && gone in kept && gone !in start ==> kept[gone].updated <= start[k].updated)
  }

  class GatewayBuckets {
    var buckets: Buckets
    const maximum: nat
    const idle: Time

    function Keeping(): Keeping {
      WhenCrowded(idle, maximum)
    }

    ghost predicate Valid()
      reads this
    {
      maximum >= 1 && |buckets| <= maximum
    }

    constructor (maximum: nat, idle: Time)
      requires maximum >= 1
      ensures Valid() && buckets == map[]
    {
      this.maximum, this.idle := maximum, idle;
      buckets := map[];
    }

    // Idle buckets go first, then the least recently used, and only when the
    // store is full.
    method EvictBuckets(now: Time)
      requires Valid()
      modifies this`buckets
      ensures |buckets| < maximum
      ensures |old(buckets)| < maximum ==> buckets == old(buckets)
      ensures |old(buckets)| >= maximum ==>
                var awake := map k | k in old(buckets) && old(buckets)[k].updated > now - idle :: old(buckets)[k];
                && EvictedFrom(awake, buckets)
                && (|awake| < maximum ==> buckets == awake)
                && (|awake| >= maximum ==> |buckets| == maximum - 1)
    {
      if |buckets| < maximum {
        return;
      }
      var awake := map k | k in buckets && buckets[k].updated > now - idle :: buckets[k];
      FewerKeys(awake.Keys, buckets.Keys);
      assert |awake.Keys| == |awake|;
      buckets := awake;
      while |buckets| >= maximum
        invariant EvictedFrom(awake, buckets) && |buckets| <= maximum
        invariant |awake| < maximum ==> buckets == awake
        invariant |awake| >= maximum ==> |buckets| >= maximum - 1
        decreases |buckets|
      {
        var oldest := Oldest(buckets);
        buckets := buckets - {oldest};
      }
    }

    method RateLimit(key: string, ratePerMinute: nat, now: Time) returns (allowed: bool)
      requires Valid() && Before(buckets, now)
      modifies this`buckets
      ensures Valid() && Before(buckets, now)
      ensures Roomy(Keeping(), old(buckets), key, now) ==>
                (buckets, allowed) == Touch(PerMinute(ratePerMinute), Kept(Keeping(), old(buckets), key, now), key, now)
      ensures !Roomy(Keeping(), old(buckets), key, now) ==>
                exists start :: EvictedFrom(Kept(Keeping(), old(buckets), key, now), start) && |start| == maximum - 1
                                && (buckets, allowed) == Touch(PerMinute(ratePerMinute), start, key, now)
      ensures key in buckets && OthersKept(old(buckets), buckets, key)
      ensures TakesOne(Limit(ratePerMinute, ratePerMinute as real / 60.0), old(buckets), key, now, buckets[key], allowed)
      ensures key in old(buckets) || |old(buckets)| < maximum ==> buckets.Keys == old(buckets).Keys + {key}
    {
      hide EvictedFrom, Kept, Touch, Roomy, TakesOne;
      FindPlace(key, now);
      ghost var roomy := buckets;
      allowed := TryTake(key, ratePerMinute, now);
      TouchTakesOne(PerMinute(ratePerMinute), roomy, key, now);
      SameTaken(PerMinute(ratePerMinute), roomy, old(buckets), key, now, buckets[key], allowed);
    }

    // A new key needs a place.
    method FindPlace(key: string, now: Time)
      requires Valid() && Before(buckets, now)
      modifies this`buckets
      ensures Valid() && Before(buckets, now) && (key in buckets || |buckets| < maximum)
      ensures Roomy(Keeping(), old(buckets), key, now) ==> buckets == Kept(Keeping(), old(buckets), key, now)
      ensures !Roomy(Keeping(), old(buckets), key, now) ==>
                EvictedFrom(Kept(Keeping(), old(buckets), key, now), buckets) && |buckets| == maximum - 1
      ensures (key in buckets <==> key in old(buckets)) && (key in buckets ==> buckets[key] == old(buckets)[key])
      ensures OthersKept(old(buckets), buckets, key)
      ensures key in old(buckets) || |old(buckets)| < maximum ==> buckets == old(buckets)
    {
      if key !in buckets {
        EvictBuckets(now);
      }
    }

    // A key without a bucket gets a full one first.
    method TryTake(key: string, ratePerMinute: nat, now: Time) returns (allowed: bool)
      requires Valid() && Before(buckets, now) && (key in buckets || |buckets| < maximum)
      modifies this`buckets
      ensures Valid() && Before(buckets, now)
      ensures (buckets, allowed) == Touch(PerMinute(ratePerMinute), old(buckets), key, now)
    {
      var capacity := ratePerMinute as real;
      ghost var start := buckets;
      if key !in buckets {
        buckets := buckets[key := Bucket(capacity, now)];
      }
      var bucket := buckets[key];
      bucket := Bucket(Min(capacity, bucket.tokens + (now - bucket.updated) * (capacity / 60.0)), now);
      assert bucket.tokens == Available(PerMinute(ratePerMinute), start, key, now);
      allowed := bucket.tokens >= 1.0;
      if allowed {
        bucket := bucket.(tokens := bucket.tokens - 1.0);
      }
      buckets := buckets[key := bucket];
      assert buckets == start[key := bucket];
    }
  }

  // ---------------------------------------------------------------------
  // The shared store: one atomic script per call, keys that expire
  // ---------------------------------------------------------------------

  class RedisRateKey {
    var hash: Buckets
    var expiresAt: map<string, Time>
    const ttl: Time

    ghost predicate Valid()
      reads this
    {
      && expiresAt.Keys == hash.Keys
      && forall k :: k in hash ==> expiresAt[k] == hash[k].updated + ttl
    }

    constructor (ttl: Time)
      ensures Valid() && hash == map[]
    {
      this.ttl := ttl;
      hash, expiresAt := map[], map[];
    }

    method DropExpired(now: Time)
      requires Valid()
      modifies this
      ensures Valid()
      ensures hash == Kept(Expiring(ttl), old(hash), "", now)
    {
      var live := set k | k in hash && now < expiresAt[k];
      hash := map k | k in hash && k in live :: hash[k];
      expiresAt := map k | k in expiresAt && k in live :: expiresAt[k];
    }

    // A rate of zero or less refuses without touching the key.
    method AllowRateLimit(key: string, ratePerMinute: int, now: Time) returns (allowed: bool)
      requires Valid() && Before(hash, now)
      modifies this
      ensures Valid() && Before(hash, now)
      ensures ratePerMinute > 0 ==>
                (hash, allowed) == Touch(PerMinute(ratePerMinute), Kept(Expiring(ttl), old(hash), key, now), key, now)
      ensures ratePerMinute <= 0 ==> !allowed && hash == Kept(Expiring(ttl), old(hash), key, now)
      ensures var live := map k | k in old(hash) && now < old(hash)[k].updated + ttl :: old(hash)[k];
              && (ratePerMinute <= 0 ==> !allowed && hash == live)
              && (ratePerMinute > 0 ==>
                    && hash.Keys == live.Keys + {key} && OthersKept(live, hash, key)
                    && TakesOne(Limit(ratePerMinute, ratePerMinute as real / 60.0), live, key, now, hash[key], allowed))
    {
      DropExpired(now);
      assert hash == Kept(Expiring(ttl), old(hash), key, now);
      if ratePerMinute <= 0 {
        return false;
      }
      ghost var live := hash;
      allowed := Take(key, ratePerMinute, now);
      hide Kept, Touch;
      TouchTakesOne(PerMinute(ratePerMinute), live, key, now);
    }

    // The script on the keys that are left.
    method Take(key: string, ratePerMinute: nat, now: Time) returns (allowed: bool)
      requires Valid() && Before(hash, now) && ratePerMinute > 0
      modifies this
      ensures Valid() && Before(hash, now)
      ensures (hash, allowed) == Touch(PerMinute(ratePerMinute), old(hash), key, now)
    {
      ghost var start := hash;
      var rate := ratePerMinute as real;
      var bucket := if key in hash then hash[key] else Bucket(rate, now);
      var elapsed := if now - bucket.updated > 0.0 then now - bucket.updated else 0.0;
      var tokens := Min(rate, bucket.tokens + elapsed * rate / 60.0);
      assert elapsed * rate / 60.0 == elapsed * (rate / 60.0);
      assert tokens == Available(PerMinute(ratePerMinute), start, key, now);
      allowed := tokens >= 1.0;
      if allowed {
        tokens := tokens - 1.0;
      }
      hash := hash[key := Bucket(tokens, now)];
      expiresAt := expiresAt[key := now + ttl];
      assert (hash, allowed) == Touch(PerMinute(ratePerMinute), start, key, now);
    }
  }
}
