// One ideal token bucket per key, and what stores that forget idle buckets do
// to it. Time is real and does not run backwards.
module TokenBucket {
  type Time = real

  datatype Limit = Limit(capacity: nat, rate: real)

  datatype Bucket = Bucket(tokens: real, updated: Time)

  type Buckets = map<string, Bucket>

  function Min(a: real, b: real): real {
    if a <= b then a else b
  }

  // What `elapsed` seconds add at this rate; a clock that stood still or went
  // back adds nothing.
  function Gain(rate: real, elapsed: Time): real {
    if elapsed <= 0.0 then 0.0 else elapsed * rate
  }

  function Refilled(limit: Limit, b: Bucket, now: Time): real {
    Min(limit.capacity as real, b.tokens + Gain(limit.rate, now - b.updated))
  }

  // A key without a bucket has a full one.
  function Available(limit: Limit, m: Buckets, key: string, now: Time): real {
    if key in m then Refilled(limit, m[key], now) else limit.capacity as real
  }

  function Touch(limit: Limit, m: Buckets, key: string, now: Time): (Buckets, bool) {
    var tokens := Available(limit, m, key, now);
    if tokens >= 1.0 then (m[key := Bucket(tokens - 1.0, now)], true)
    else (m[key := Bucket(tokens, now)], false)
  }

  // ---------------------------------------------------------------------
  // Stores
  // ---------------------------------------------------------------------

  // Which buckets are still there when a call arrives, eviction of the least
  // recently used one apart.
  datatype Keeping =
    | Forever
    | Purging(idle: Time, maximum: nat)
    | WhenCrowded(idle: Time, maximum: nat)
    | Expiring(ttl: Time)

  datatype Limiter = Limiter(keeping: Keeping, limits: string -> Limit)

  datatype Call = Call(key: string, at: Time)

  function Kept(keeping: Keeping, m: Buckets, key: string, now: Time): Buckets {
    match keeping
    case Forever => m
    case Purging(idle, _) => map k | k in m && m[k].updated >= now - idle :: m[k]
    case WhenCrowded(idle, maximum) =>
      if key in m || |m| < maximum then m else map k | k in m && m[k].updated > now - idle :: m[k]
    case Expiring(ttl) => map k | k in m && now < m[k].updated + ttl :: m[k]
  }

  // No bucket has to be evicted to make room for this call's.
  predicate Roomy(keeping: Keeping, m: Buckets, key: string, now: Time) {
    keeping.Forever? || keeping.Expiring? ||
    (var kept := Kept(keeping, m, key, now); key in kept || |kept| < keeping.maximum)
  }

  function Step(l: Limiter, m: Buckets, call: Call): (Buckets, bool) {
    Touch(l.limits(call.key), Kept(l.keeping, m, call.key, call.at), call.key, call.at)
  }

  function Final(l: Limiter, m: Buckets, calls: seq<Call>): Buckets
    decreases |calls|
  {
    if calls == [] then m else Final(l, Step(l, m, calls[0]).0, calls[1..])
  }

  function Answers(l: Limiter, m: Buckets, calls: seq<Call>): (r: seq<bool>)
    ensures |r| == |calls|
    decreases |calls|
  {
    if calls == [] then [] else [Step(l, m, calls[0]).1] + Answers(l, Step(l, m, calls[0]).0, calls[1..])
  }

  predicate NoEviction(l: Limiter, m: Buckets, calls: seq<Call>)
    decreases |calls|
  {
    calls == [] ||
    (Roomy(l.keeping, m, calls[0].key, calls[0].at) && NoEviction(l, Step(l, m, calls[0]).0, calls[1..]))
  }

  predicate Clocked(calls: seq<Call>, from: Time) {
    calls == [] || (from <= calls[0].at && Clocked(calls[1..], calls[0].at))
  }

  function End(calls: seq<Call>, from: Time): Time {
    if calls == [] then from else calls[|calls| - 1].at
  }

  function Admitted(key: string, calls: seq<Call>, answers: seq<bool>): nat
    requires |answers| == |calls|
  {
    if calls == [] then 0
    else (if calls[0].key == key && answers[0] then 1 else 0) + Admitted(key, calls[1..], answers[1..])
  }

  ghost predicate WellFormed(l: Limiter) {
    && (forall k: string :: l.limits(k).rate >= 0.0)
    && (l.keeping.Purging? || l.keeping.WhenCrowded? ==> l.keeping.idle > 0.0 && l.keeping.maximum >= 1)
    && (l.keeping.Expiring? ==> l.keeping.ttl > 0.0)
  }

  ghost predicate InRange(l: Limiter, m: Buckets) {
    forall k :: k in m ==> 0.0 <= m[k].tokens <= l.limits(k).capacity as real
  }

  ghost predicate Before(m: Buckets, now: Time) {
    forall k :: k in m ==> m[k].updated <= now
  }

  // ---------------------------------------------------------------------
  // Gain
  // ---------------------------------------------------------------------

  lemma GainAdds(rate: real, a: Time, b: Time)
    requires rate >= 0.0 && a >= 0.0 && b >= 0.0
    ensures Gain(rate, a + b) == Gain(rate, a) + Gain(rate, b)
    ensures Gain(rate, a) >= 0.0 && Gain(rate, b) >= 0.0
  {
    assert (a + b) * rate == a * rate + b * rate;
  }

  lemma RefillGrows(limit: Limit, b: Bucket, s: Time, t: Time)
    requires limit.rate >= 0.0 && b.updated <= s <= t
    ensures Refilled(limit, b, s) <= Refilled(limit, b, t) <= Refilled(limit, b, s) + Gain(limit.rate, t - s)
  {
    GainAdds(limit.rate, s - b.updated, t - s);
    hide Gain;
  }

  lemma AvailableInRange(l: Limiter, m: Buckets, key: string, now: Time)
    requires WellFormed(l) && InRange(l, m)
    ensures 0.0 <= Available(l.limits(key), m, key, now) <= l.limits(key).capacity as real
  {
    if key in m {
      var dt := now - m[key].updated;
      if dt > 0.0 {
        GainAdds(l.limits(key).rate, dt, 0.0);
      }
      assert Gain(l.limits(key).rate, dt) >= 0.0;
      hide Gain;
    }
  }

  // Tokens stay within [0, capacity], whatever the store forgets.
  lemma StepInRange(l: Limiter, m: Buckets, call: Call)
    requires WellFormed(l) && InRange(l, m) && Before(m, call.at)
    ensures InRange(l, Step(l, m, call).0) && Before(Step(l, m, call).0, call.at)
  {
    var kept := Kept(l.keeping, m, call.key, call.at);
    assert InRange(l, kept);
    AvailableInRange(l, kept, call.key, call.at);
    hide Available;
  }

  // ---------------------------------------------------------------------
  // Windows
  // ---------------------------------------------------------------------

  // Admissions are paid for: what was there at the start plus what time added
  // covers the calls admitted plus what is there at the end.
  lemma {:induction false} Paid(l: Limiter, m: Buckets, calls: seq<Call>, from: Time, key: string)
    requires WellFormed(l) && l.keeping.Forever? && InRange(l, m) && Before(m, from) && Clocked(calls, from)
    ensures InRange(l, Final(l, m, calls)) && from <= End(calls, from) && Before(Final(l, m, calls), End(calls, from))
    ensures Admitted(key, calls, Answers(l, m, calls)) as real + Available(l.limits(key), Final(l, m, calls), key, End(calls, from))
         <= Available(l.limits(key), m, key, from) + Gain(l.limits(key).rate, End(calls, from) - from)
    decreases |calls|
  {
    if calls != [] {
      var now := calls[0].at;
      assert Before(m, now) && Clocked(calls[1..], now) && from <= now;
      assert l.limits(key).rate >= 0.0;
      hide *;
      StepInRange(l, m, calls[0]);
      Paid(l, Step(l, m, calls[0]).0, calls[1..], now, key);
      Unfold(l, m, calls, from, key);
      PaidOnce(l, m, calls[0], from, key);
      GainAdds(l.limits(key).rate, now - from, End(calls, from) - now);
    }
  }

  lemma Unfold(l: Limiter, m: Buckets, calls: seq<Call>, from: Time, key: string)
    requires calls != []
    ensures var next := Step(l, m, calls[0]).0;
            && Final(l, m, calls) == Final(l, next, calls[1..])
            && End(calls, from) == End(calls[1..], calls[0].at)
            && Admitted(key, calls, Answers(l, m, calls))
               == Admitted(key, calls[1..], Answers(l, next, calls[1..]))
                  + (if key == calls[0].key && Step(l, m, calls[0]).1 then 1 else 0)
  {
    assert Answers(l, m, calls)[1..] == Answers(l, Step(l, m, calls[0]).0, calls[1..]);
  }

  lemma PaidOnce(l: Limiter, m: Buckets, call: Call, from: Time, key: string)
    requires WellFormed(l) && l.keeping.Forever? && Before(m, from) && from <= call.at
    ensures var (after, allowed) := Step(l, m, call);
            Available(l.limits(key), after, key, call.at) + (if key == call.key && allowed then 1.0 else 0.0)
            <= Available(l.limits(key), m, key, from) + Gain(l.limits(key).rate, call.at - from)
  {
    var limit := l.limits(key);
    Charged(limit, m, call, l.limits(call.key), key);
    GainAdds(limit.rate, call.at - from, 0.0);
    if key in m {
      RefillGrows(limit, m[key], from, call.at);
    }
    hide Touch, Gain, Refilled, Before;
  }

  // One call costs its own key one token if admitted, other keys nothing.
  lemma Charged(limit: Limit, m: Buckets, call: Call, own: Limit, key: string)
    requires key == call.key ==> limit == own
    ensures var (after, allowed) := Touch(own, m, call.key, call.at);
            Available(limit, after, key, call.at)
            <= Available(limit, m, key, call.at) - (if key == call.key && allowed then 1.0 else 0.0)
  {
  }

  lemma {:induction false} Split(l: Limiter, m: Buckets, a: seq<Call>, b: seq<Call>)
    ensures Final(l, m, a + b) == Final(l, Final(l, m, a), b)
    ensures Answers(l, m, a + b) == Answers(l, m, a) + Answers(l, Final(l, m, a), b)
    decreases |a|
  {
    if a == [] {
      assert a + b == b;
    } else {
      hide Step;
      assert (a + b)[1..] == a[1..] + b;
      Split(l, Step(l, m, a[0]).0, a[1..], b);
    }
  }

  lemma {:induction false} ClockedSplit(a: seq<Call>, b: seq<Call>, from: Time)
    ensures Clocked(a + b, from) <==> Clocked(a, from) && Clocked(b, End(a, from))
    decreases |a|
  {
    if a == [] {
      assert a + b == b;
    } else {
      assert (a + b)[1..] == a[1..] + b;
      ClockedSplit(a[1..], b, a[0].at);
    }
  }

  lemma WindowAnswers(l: Limiter, m: Buckets, calls: seq<Call>, i: nat, j: nat)
    requires i <= j <= |calls|
    ensures Answers(l, m, calls)[i..j] == Answers(l, Final(l, m, calls[..i]), calls[i..j])
  {
    assert calls == calls[..i] + calls[i..] && calls[i..] == calls[i..j] + calls[j..];
    hide Step, Answers, Final;
    Split(l, m, calls[..i], calls[i..]);
    Split(l, Final(l, m, calls[..i]), calls[i..j], calls[j..]);
  }

  lemma WindowClocked(calls: seq<Call>, from: Time, i: nat, j: nat)
    requires i < j <= |calls| && Clocked(calls, from)
    ensures Clocked(calls[..i], from) && End(calls[..i], from) <= calls[i].at
    ensures Clocked(calls[i..j], calls[i].at)
  {
    assert calls == calls[..i] + calls[i..] && calls[i..] == calls[i..j] + calls[j..];
    ClockedSplit(calls[..i], calls[i..], from);
    ClockedSplit(calls[i..j], calls[j..], End(calls[..i], from));
    assert calls[i..][0] == calls[i] && calls[i..j][0] == calls[i];
  }

  // The window admits the key no more often than a full bucket and the time
  // from its first to its last call allow.
  predicate WithinBound(limit: Limit, window: seq<Call>, answers: seq<bool>, key: string)
    requires |window| == |answers| > 0
  {
    Admitted(key, window, answers) as real
    <= limit.capacity as real + Gain(limit.rate, window[|window| - 1].at - window[0].at)
  }

  lemma WindowFrom(l: Limiter, m: Buckets, window: seq<Call>, key: string)
    requires WellFormed(l) && l.keeping.Forever? && InRange(l, m)
    requires window != [] && Before(m, window[0].at) && Clocked(window, window[0].at)
    ensures WithinBound(l.limits(key), window, Answers(l, m, window), key)
  {
    var from := window[0].at;
    var answers := Answers(l, m, window);
    assert WithinBound(l.limits(key), window, answers, key) <==>
           Admitted(key, window, answers) as real
           <= l.limits(key).capacity as real + Gain(l.limits(key).rate, End(window, from) - from);
    hide *;
    Paid(l, m, window, from, key);
    AvailableInRange(l, m, key, from);
    AvailableInRange(l, Final(l, m, window), key, End(window, from));
  }

  lemma StateAt(l: Limiter, calls: seq<Call>, from: Time, i: nat)
    requires WellFormed(l) && l.keeping.Forever? && i < |calls| && Clocked(calls, from)
    ensures InRange(l, Final(l, map[], calls[..i])) && Before(Final(l, map[], calls[..i]), calls[i].at)
  {
    hide Final, Answers, Available, WellFormed;
    WindowClocked(calls, from, i, |calls|);
    Paid(l, map[], calls[..i], from, calls[i].key);
  }

  predicate WindowBound(limit: Limit, calls: seq<Call>, answers: seq<bool>, i: nat, j: nat, key: string)
    requires i < j <= |calls| == |answers|
  {
    WithinBound(limit, calls[i..j], answers[i..j], key)
  }

  // A store that never forgets, over every window of every run.
  lemma IdealWindow(l: Limiter, calls: seq<Call>, from: Time, i: nat, j: nat, key: string)
    requires WellFormed(l) && l.keeping.Forever? && Clocked(calls, from) && i < j <= |calls|
    ensures WindowBound(l.limits(key), calls, Answers(l, map[], calls), i, j, key)
  {
    hide Step, Gain, Available, Answers, Final, Admitted, Clocked, InRange, Before, WellFormed, WithinBound;
    WindowAnswers(l, map[], calls, i, j);
    WindowClocked(calls, from, i, j);
    StateAt(l, calls, from, i);
    assert calls[i..j][0] == calls[i];
    WindowFrom(l, Final(l, map[], calls[..i]), calls[i..j], key);
  }

  // ---------------------------------------------------------------------
  // Forgetting
  // ---------------------------------------------------------------------

  function Ideal(l: Limiter): Limiter {
    l.(keeping := Forever)
  }

  function IdleTime(keeping: Keeping): Time
    requires !keeping.Forever?
  {
    if keeping.Expiring? then keeping.ttl else keeping.idle
  }

  // An idle bucket is full again by the time it may be dropped.
  ghost predicate Sufficient(l: Limiter) {
    l.keeping.Forever? || forall k: string :: Gain(l.limits(k).rate, IdleTime(l.keeping)) >= l.limits(k).capacity as real
  }

  // What was forgotten would be a full bucket by now.
  ghost predicate Shadows(l: Limiter, m: Buckets, all: Buckets, now: Time) {
    && (forall k :: k in m ==> k in all && all[k] == m[k])
    && (forall k :: k in all && k !in m ==> Refilled(l.limits(k), all[k], now) == l.limits(k).capacity as real)
  }

  lemma LongIdleIsFull(limit: Limit, b: Bucket, idle: Time, now: Time)
    requires limit.rate >= 0.0 && idle > 0.0 && b.tokens >= 0.0 && b.updated <= now - idle
    requires Gain(limit.rate, idle) >= limit.capacity as real
    ensures Refilled(limit, b, now) == limit.capacity as real
  {
    GainAdds(limit.rate, idle, now - b.updated - idle);
    assert idle + (now - b.updated - idle) == now - b.updated;
    hide Gain;
  }

  lemma KeptShadows(l: Limiter, m: Buckets, all: Buckets, from: Time, call: Call)
    requires WellFormed(l) && Sufficient(l) && InRange(l, all) && Before(all, from) && from <= call.at
    requires Shadows(l, m, all, from)
    ensures Shadows(l, Kept(l.keeping, m, call.key, call.at), all, call.at)
  {
    var kept := Kept(l.keeping, m, call.key, call.at);
    forall k | k in all && k !in kept
      ensures Refilled(l.limits(k), all[k], call.at) == l.limits(k).capacity as real
    {
      if k in m {
        LongIdleIsFull(l.limits(k), all[k], IdleTime(l.keeping), call.at);
      } else {
        RefillGrows(l.limits(k), all[k], from, call.at);
      }
    }
  }

  lemma TouchShadows(l: Limiter, m: Buckets, all: Buckets, call: Call)
    requires Shadows(l, m, all, call.at)
    ensures var limit := l.limits(call.key);
            && Touch(limit, m, call.key, call.at).1 == Touch(limit, all, call.key, call.at).1
            && Shadows(l, Touch(limit, m, call.key, call.at).0, Touch(limit, all, call.key, call.at).0, call.at)
  {
    assert Available(l.limits(call.key), m, call.key, call.at) == Available(l.limits(call.key), all, call.key, call.at);
    hide Available, Refilled;
  }

  lemma {:induction false} ForgettingUnobserved(l: Limiter, m: Buckets, all: Buckets, calls: seq<Call>, from: Time)
    requires WellFormed(l) && Sufficient(l) && InRange(l, all) && Before(all, from) && Clocked(calls, from)
    requires Shadows(l, m, all, from)
    ensures Answers(l, m, calls) == Answers(Ideal(l), all, calls)
    decreases |calls|
  {
    if calls != [] {
      var now := calls[0].at;
      KeptShadows(l, m, all, from, calls[0]);
      TouchShadows(l, Kept(l.keeping, m, calls[0].key, now), all, calls[0]);
      assert Before(all, now);
      StepInRange(Ideal(l), all, calls[0]);
      var m', all' := Step(l, m, calls[0]).0, Step(Ideal(l), all, calls[0]).0;
      assert Shadows(l, m', all', now) && InRange(l, all');
      hide Touch, Kept, InRange, Before, Sufficient, Shadows, WellFormed;
      ForgettingUnobserved(l, m', all', calls[1..], now);
    }
  }

  // No caller can tell this store from one that never forgets, as long as it
  // never has to evict.
  ghost predicate Unobservable(l: Limiter) {
    forall calls, from :: Clocked(calls, from) && NoEviction(l, map[], calls) ==>
      Answers(l, map[], calls) == Answers(Ideal(l), map[], calls)
  }

  ghost predicate Bounded(l: Limiter) {
    forall calls: seq<Call>, from, i, j, key: string ::
      Clocked(calls, from) && NoEviction(l, map[], calls) && 0 <= i < j <= |calls| ==>
        WindowBound(l.limits(key), calls, Answers(l, map[], calls), i, j, key)
  }

  lemma SufficientIsEnough(l: Limiter)
    requires WellFormed(l) && Sufficient(l)
    ensures Unobservable(l) && Bounded(l)
  {
    forall calls, from | Clocked(calls, from) && NoEviction(l, map[], calls)
      ensures Answers(l, map[], calls) == Answers(Ideal(l), map[], calls)
    {
      ForgettingUnobserved(l, map[], map[], calls, from);
    }
    forall calls: seq<Call>, from, i, j, key: string
      | Clocked(calls, from) && NoEviction(l, map[], calls) && 0 <= i < j <= |calls|
      ensures WindowBound(l.limits(key), calls, Answers(l, map[], calls), i, j, key)
    {
      ForgettingUnobserved(l, map[], map[], calls, from);
      IdealWindow(Ideal(l), calls, from, i, j, key);
    }
  }
}
