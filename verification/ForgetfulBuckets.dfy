// Exactly when forgetting idle buckets changes an answer or breaks the bound.
module ForgetfulBuckets {
  import opened TokenBucket

  function Batch(key: string, at: Time, n: nat): (calls: seq<Call>)
    ensures |calls| == n
    ensures forall i :: 0 <= i < n ==> calls[i] == Call(key, at)
  {
    if n == 0 then [] else [Call(key, at)] + Batch(key, at, n - 1)
  }

  lemma {:induction false} BatchClocked(key: string, at: Time, n: nat, from: Time)
    requires from <= at
    ensures Clocked(Batch(key, at, n), from)
  {
    if n > 0 {
      assert Batch(key, at, n)[1..] == Batch(key, at, n - 1);
      BatchClocked(key, at, n - 1, at);
    }
  }

  lemma {:induction false} AdmittedSplit(key: string, a: seq<Call>, b: seq<Call>, xs: seq<bool>, ys: seq<bool>)
    requires |a| == |xs| && |b| == |ys|
    ensures Admitted(key, a + b, xs + ys) == Admitted(key, a, xs) + Admitted(key, b, ys)
  {
    if a == [] {
      assert a + b == b && xs + ys == ys;
    } else {
      assert (a + b)[1..] == a[1..] + b && (xs + ys)[1..] == xs[1..] + ys;
      AdmittedSplit(key, a[1..], b, xs[1..], ys);
    }
  }

  lemma {:induction false} EvictionSplit(l: Limiter, m: Buckets, a: seq<Call>, b: seq<Call>)
    requires NoEviction(l, m, a) && NoEviction(l, Final(l, m, a), b)
    ensures NoEviction(l, m, a + b)
    decreases |a|
  {
    if a == [] {
      assert a + b == b;
    } else {
      hide Step, Roomy;
      assert (a + b)[1..] == a[1..] + b;
      EvictionSplit(l, Step(l, m, a[0]).0, a[1..], b);
    }
  }

  // However the buckets of other keys are kept, this key always finds room.
  predicate Spacious(keeping: Keeping, m: Buckets, key: string) {
    keeping.Purging? || keeping.WhenCrowded? ==> |m.Keys - {key}| < keeping.maximum
  }

  lemma FewerKeys(a: set<string>, b: set<string>)
    requires a <= b
    ensures |a| <= |b|
  {
    assert b == a + (b - a);
  }

  lemma SpaciousIsRoomy(l: Limiter, m: Buckets, call: Call)
    requires Spacious(l.keeping, m, call.key)
    ensures Roomy(l.keeping, m, call.key, call.at)
    ensures Spacious(l.keeping, Step(l, m, call).0, call.key)
  {
    var kept := Kept(l.keeping, m, call.key, call.at);
    FewerKeys(kept.Keys - {call.key}, m.Keys - {call.key});
    FewerKeys(Step(l, m, call).0.Keys - {call.key}, m.Keys - {call.key});
    if call.key !in kept {
      assert kept.Keys - {call.key} == kept.Keys;
    }
  }

  // A call for the key finds room now and from then on.
  predicate Welcome(l: Limiter, m: Buckets, key: string, at: Time) {
    Roomy(l.keeping, m, key, at) && Spacious(l.keeping, Step(l, m, Call(key, at)).0, key)
  }

  predicate JustUsed(m: Buckets, key: string, at: Time) {
    key in m && m[key].updated == at
  }

  lemma OneTokenLess(l: Limiter, m: Buckets, key: string, at: Time)
    requires WellFormed(l) && Available(l.limits(key), Kept(l.keeping, m, key, at), key, at) >= 1.0
    ensures var (next, allowed) := Step(l, m, Call(key, at));
            && allowed && JustUsed(next, key, at) && next.Keys <= m.Keys + {key}
            && Available(l.limits(key), Kept(l.keeping, next, key, at), key, at)
               == Available(l.limits(key), Kept(l.keeping, m, key, at), key, at) - 1.0
  {
  }

  // As many calls at one instant as there are tokens are all admitted.
  lemma {:induction false} BatchAdmitted(l: Limiter, m: Buckets, key: string, at: Time, n: nat)
    requires WellFormed(l) && Welcome(l, m, key, at) && n > 0
    requires Available(l.limits(key), Kept(l.keeping, m, key, at), key, at) >= n as real
    ensures var calls := Batch(key, at, n);
            && Admitted(key, calls, Answers(l, m, calls)) == n
            && NoEviction(l, m, calls)
            && JustUsed(Final(l, m, calls), key, at)
            && Final(l, m, calls).Keys <= Kept(l.keeping, m, key, at).Keys + {key}
    decreases n
  {
    var calls := Batch(key, at, n);
    var next := Step(l, m, Call(key, at)).0;
    assert calls[1..] == Batch(key, at, n - 1) && calls[0] == Call(key, at);
    OneTokenLess(l, m, key, at);
    SpaciousIsRoomy(l, next, Call(key, at));
    assert Kept(l.keeping, next, key, at).Keys <= next.Keys <= Kept(l.keeping, m, key, at).Keys + {key};
    Unfold(l, m, calls, at, key);
    hide Step, Available, Kept, Roomy, Spacious, JustUsed, Answers, WellFormed;
    if n > 1 {
      BatchAdmitted(l, next, key, at, n - 1);
    }
  }

  lemma SlowerToFill(rate: real, a: Time, b: Time)
    requires rate > 0.0 && a * rate < b * rate
    ensures a < b
  {
  }

  lemma EmptyIsWelcome(l: Limiter, key: string, at: Time)
    requires WellFormed(l)
    ensures Welcome(l, map[], key, at)
  {
    var none: Buckets := map[];
    assert none.Keys - {key} == {};
    SpaciousIsRoomy(l, none, Call(key, at));
  }

  // An instant after the bucket may be dropped and before it is full again.
  lemma TooSoon(limit: Limit, idle: Time) returns (at: Time)
    requires limit.rate >= 0.0 && idle > 0.0 && Gain(limit.rate, idle) < limit.capacity as real
    ensures at > idle && Gain(limit.rate, at) < limit.capacity as real && limit.capacity > 0
  {
    assert idle * limit.rate >= 0.0;
    if limit.rate == 0.0 {
      at := idle + 1.0;
    } else {
      var full := limit.capacity as real / limit.rate;
      assert full * limit.rate == limit.capacity as real;
      SlowerToFill(limit.rate, idle, full);
      at := (idle + full) / 2.0;
      assert at * limit.rate == (idle * limit.rate + full * limit.rate) / 2.0;
    }
  }

  // Spend everything, let the store forget, spend everything again.
  function Spree(key: string, n: nat, between: seq<Call>, at: Time): seq<Call> {
    Batch(key, 0.0, n) + between + Batch(key, at, n)
  }

  lemma SpreeAdmitted(l: Limiter, key: string, between: seq<Call>, at: Time)
    requires WellFormed(l) && at >= 0.0 && l.limits(key).capacity > 0
    requires Clocked(between, 0.0) && End(between, 0.0) <= at
    requires var m := Final(l, map[], Batch(key, 0.0, l.limits(key).capacity));
             && NoEviction(l, m, between)
             && key !in Kept(l.keeping, Final(l, m, between), key, at)
             && Welcome(l, Final(l, m, between), key, at)
    ensures var calls := Spree(key, l.limits(key).capacity, between, at);
            && Clocked(calls, 0.0) && NoEviction(l, map[], calls)
            && Admitted(key, calls, Answers(l, map[], calls)) >= 2 * l.limits(key).capacity
  {
    var n := l.limits(key).capacity;
    var first, second := Batch(key, 0.0, n), Batch(key, at, n);
    EmptyIsWelcome(l, key, 0.0);
    assert key !in Kept(l.keeping, map[], key, 0.0);
    hide Step, Kept, Welcome, WellFormed;
    BatchAdmitted(l, map[], key, 0.0, n);
    var m := Final(l, map[], first);
    BatchAdmitted(l, Final(l, m, between), key, at, n);
    hide Available, Answers, Final, Batch, NoEviction, Admitted, Clocked;
    Split(l, map[], first, between);
    Split(l, map[], first + between, second);
    EvictionSplit(l, map[], first, between);
    EvictionSplit(l, map[], first + between, second);
    AdmittedSplit(key, first, between, Answers(l, map[], first), Answers(l, m, between));
    AdmittedSplit(key, first + between, second, Answers(l, map[], first + between), Answers(l, Final(l, m, between), second));
    SpreeClocked(key, n, between, at);
  }

  lemma SpreeClocked(key: string, n: nat, between: seq<Call>, at: Time)
    requires n > 0 && Clocked(between, 0.0) && End(between, 0.0) <= at
    ensures Clocked(Spree(key, n, between, at), 0.0)
    ensures End(Spree(key, n, between, at), 0.0) == at && Spree(key, n, between, at)[0] == Call(key, 0.0)
  {
    BatchClocked(key, 0.0, n, 0.0);
    ClockedSplit(Batch(key, 0.0, n), between, 0.0);
    var start := Batch(key, 0.0, n) + between;
    assert End(start, 0.0) == End(between, 0.0);
    BatchClocked(key, at, n, End(start, 0.0));
    ClockedSplit(start, Batch(key, at, n), 0.0);
  }

  // Answers that admit this much belong to no store that never forgets, and
  // break the bound.
  lemma TooMany(l: Limiter, key: string, between: seq<Call>, at: Time)
    requires WellFormed(l) && l.limits(key).capacity > 0 && Clocked(between, 0.0) && End(between, 0.0) <= at
    requires Gain(l.limits(key).rate, at) < l.limits(key).capacity as real
    requires var calls := Spree(key, l.limits(key).capacity, between, at);
             && NoEviction(l, map[], calls)
             && Admitted(key, calls, Answers(l, map[], calls)) >= 2 * l.limits(key).capacity
    ensures !Unobservable(l) && !Bounded(l)
  {
    var calls := Spree(key, l.limits(key).capacity, between, at);
    SpreeClocked(key, l.limits(key).capacity, between, at);
    var answers := Answers(l, map[], calls);
    assert calls[..] == calls && answers[..] == answers;
    assert !WindowBound(l.limits(key), calls, answers, 0, |calls|, key) by {
      hide Gain;
      assert calls[0..|calls|] == calls && answers[0..|calls|] == answers;
    }
    IdealWindow(Ideal(l), calls, 0.0, 0, |calls|, key);
  }

  lemma Insufficient(l: Limiter) returns (key: string, at: Time)
    requires WellFormed(l) && !l.keeping.Forever? && !Sufficient(l)
    ensures at > IdleTime(l.keeping) && l.limits(key).capacity > 0
    ensures Gain(l.limits(key).rate, at) < l.limits(key).capacity as real
  {
    key :| Gain(l.limits(key).rate, IdleTime(l.keeping)) < l.limits(key).capacity as real;
    at := TooSoon(l.limits(key), IdleTime(l.keeping));
  }

  // A store that purges on every call, or whose keys expire, answers like one
  // that never forgets, and admits no more than the ideal bucket in any window,
  // exactly when the idle time is enough to fill every key's bucket.
  lemma ForgettingExactly(l: Limiter)
    requires WellFormed(l) && (l.keeping.Purging? || l.keeping.Expiring?)
    ensures Unobservable(l) <==> Sufficient(l)
    ensures Bounded(l) <==> Sufficient(l)
  {
    if Sufficient(l) {
      SufficientIsEnough(l);
    } else {
      var key, at := Insufficient(l);
      var n := l.limits(key).capacity;
      EmptyIsWelcome(l, key, 0.0);
      BatchAdmitted(l, map[], key, 0.0, n);
      var m := Final(l, map[], Batch(key, 0.0, n));
      assert m.Keys - {key} == {};
      SpaciousIsRoomy(l, m, Call(key, at));
      hide Sufficient, Unobservable, Bounded, Batch, Gain, Available, Admitted, Answers;
      SpreeAdmitted(l, key, [], at);
      TooMany(l, key, [], at);
    }
  }

  function Mark(n: nat): string {
    seq(n, _ => 'x')
  }

  // Calls of n other keys at time zero.
  function Fillers(key: string, n: nat): seq<Call> {
    if n == 0 then [] else Fillers(key, n - 1) + [Call(key + Mark(n), 0.0)]
  }

  lemma {:induction false} FillersClocked(key: string, n: nat)
    ensures Clocked(Fillers(key, n), 0.0) && End(Fillers(key, n), 0.0) == 0.0
  {
    if n > 0 {
      FillersClocked(key, n - 1);
      var last := [Call(key + Mark(n), 0.0)];
      assert last[1..] == [] && Clocked(last, 0.0);
      ClockedSplit(Fillers(key, n - 1), last, 0.0);
    }
  }

  // The buckets of the key and n others, all used at time zero.
  ghost predicate Filled(m: Buckets, key: string, n: nat) {
    && |m| == n + 1 && key in m
    && forall k :: k in m ==> |k| <= |key| + n && m[k].updated == 0.0
  }

  lemma OneCall(l: Limiter, m: Buckets, call: Call)
    ensures Final(l, m, [call]) == Step(l, m, call).0
    ensures NoEviction(l, m, [call]) <==> Roomy(l.keeping, m, call.key, call.at)
  {
    hide Step, Roomy;
    assert [call][1..] == [];
  }

  lemma FillOneMore(l: Limiter, m: Buckets, key: string, n: nat)
    requires l.keeping.WhenCrowded? && n + 1 < l.keeping.maximum && Filled(m, key, n)
    ensures var call := Call(key + Mark(n + 1), 0.0);
            && Roomy(l.keeping, m, call.key, 0.0)
            && Filled(Step(l, m, call).0, key, n + 1) && Step(l, m, call).0[key] == m[key]
  {
    var call := Call(key + Mark(n + 1), 0.0);
    assert |call.key| == |key| + n + 1 && call.key !in m;
    assert Kept(l.keeping, m, call.key, 0.0) == m;
    var after := Step(l, m, call).0;
    assert after.Keys == m.Keys + {call.key};
    assert |after| == |after.Keys| && |m| == |m.Keys|;
  }

  lemma OneMore(l: Limiter, m: Buckets, calls: seq<Call>, call: Call)
    requires NoEviction(l, m, calls) && Roomy(l.keeping, Final(l, m, calls), call.key, call.at)
    ensures Final(l, m, calls + [call]) == Step(l, Final(l, m, calls), call).0
    ensures NoEviction(l, m, calls + [call])
  {
    hide *;
    OneCall(l, Final(l, m, calls), call);
    Split(l, m, calls, [call]);
    EvictionSplit(l, m, calls, [call]);
  }

  lemma {:induction false} FillersFill(l: Limiter, m: Buckets, key: string, n: nat)
    requires l.keeping.WhenCrowded? && n < l.keeping.maximum && Filled(m, key, 0)
    ensures NoEviction(l, m, Fillers(key, n)) && Filled(Final(l, m, Fillers(key, n)), key, n)
    ensures Final(l, m, Fillers(key, n))[key] == m[key]
  {
    if n > 0 {
      var before := Final(l, m, Fillers(key, n - 1));
      hide NoEviction, Final, Step, Roomy, Filled, Mark;
      FillersFill(l, m, key, n - 1);
      FillOneMore(l, before, key, n - 1);
      OneMore(l, m, Fillers(key, n - 1), Call(key + Mark(n), 0.0));
    }
  }

  // With all places taken, a further key drops everything that is idle.
  lemma FullEmpties(l: Limiter, m: Buckets, key: string, c: Call)
    requires l.keeping.WhenCrowded? && l.keeping.maximum >= 2 && c.at > l.keeping.idle > 0.0
    requires Filled(m, key, l.keeping.maximum - 1) && |c.key| > |key| + l.keeping.maximum - 1
    ensures Roomy(l.keeping, m, c.key, c.at)
    ensures var after := Step(l, m, c).0; key !in Kept(l.keeping, after, key, c.at) && Welcome(l, after, key, c.at)
  {
    assert c.key !in m && c.key != key;
    assert Kept(l.keeping, m, c.key, c.at) == map[];
    var after := Step(l, m, c).0;
    assert after.Keys == {c.key} && |after| == |after.Keys| == 1;
    assert after.Keys - {key} == {c.key};
    SpaciousIsRoomy(l, after, Call(key, c.at));
  }

  lemma CrowdedSpree(l: Limiter, key: string, at: Time) returns (between: seq<Call>)
    requires WellFormed(l) && l.keeping.WhenCrowded? && l.keeping.maximum >= 2
    requires at > l.keeping.idle && l.limits(key).capacity > 0
    ensures Clocked(between, 0.0) && End(between, 0.0) <= at
    ensures var m := Final(l, map[], Batch(key, 0.0, l.limits(key).capacity));
            && NoEviction(l, m, between)
            && key !in Kept(l.keeping, Final(l, m, between), key, at)
            && Welcome(l, Final(l, m, between), key, at)
  {
    var others := l.keeping.maximum - 1;
    var c := Call(key + Mark(others + 1), at);
    var fillers := Fillers(key, others);
    between := fillers + [c];
    var m := FirstSpent(l, key);
    FillersClocked(key, others);
    assert [c][1..] == [] && Clocked([c], 0.0);
    ClockedSplit(fillers, [c], 0.0);
    hide Batch, Step, Roomy, Kept, Welcome, Filled, NoEviction, Final, Fillers;
    FillersFill(l, m, key, others);
    FullEmpties(l, Final(l, m, fillers), key, c);
    OneCall(l, Final(l, m, fillers), c);
    Split(l, m, fillers, [c]);
    EvictionSplit(l, m, fillers, [c]);
  }

  // After spending everything at time zero the key's bucket is the only one.
  lemma FirstSpent(l: Limiter, key: string) returns (m: Buckets)
    requires WellFormed(l) && l.keeping.WhenCrowded? && l.limits(key).capacity > 0
    ensures m == Final(l, map[], Batch(key, 0.0, l.limits(key).capacity)) && Filled(m, key, 0)
  {
    EmptyIsWelcome(l, key, 0.0);
    BatchAdmitted(l, map[], key, 0.0, l.limits(key).capacity);
    m := Final(l, map[], Batch(key, 0.0, l.limits(key).capacity));
    hide Batch, Final;
    assert m.Keys == {key} && |m| == |m.Keys|;
  }

  // The gateway's store forgets idle buckets only to make room. At every size
  // of two and more it answers like one that never forgets, and keeps the
  // bound, exactly when the idle time fills every key's bucket.
  lemma CrowdedExactly(l: Limiter)
    requires WellFormed(l) && l.keeping.WhenCrowded? && l.keeping.maximum >= 2
    ensures Unobservable(l) <==> Sufficient(l)
    ensures Bounded(l) <==> Sufficient(l)
  {
    if Sufficient(l) {
      SufficientIsEnough(l);
    } else {
      var key, at := Insufficient(l);
      var between := CrowdedSpree(l, key, at);
      hide Sufficient, Unobservable, Bounded, Batch, Gain, Available, Admitted, Answers, Kept, Welcome;
      SpreeAdmitted(l, key, between, at);
      TooMany(l, key, between, at);
    }
  }

  // ---------------------------------------------------------------------
  // A store with a single place
  // ---------------------------------------------------------------------

  // There a forgotten key finds room again only after the key that took its
  // place has been idle too, so it needs twice the time to be full.
  ghost predicate TwiceSufficient(l: Limiter)
    requires !l.keeping.Forever?
  {
    forall k: string :: Gain(l.limits(k).rate, 2.0 * IdleTime(l.keeping)) >= l.limits(k).capacity as real
  }

  predicate FullAt(l: Limiter, all: Buckets, k: string, at: Time)
    requires k in all
  {
    Refilled(l.limits(k), all[k], at) == l.limits(k).capacity as real
  }

  // What was forgotten is full now, or will be once the bucket that is there
  // has been idle.
  ghost predicate Recovers(l: Limiter, m: Buckets, all: Buckets, now: Time)
    requires l.keeping.WhenCrowded?
  {
    && |m| <= 1
    && (forall k :: k in m ==> k in all && all[k] == m[k])
    && (forall k :: k in all && k !in m ==>
          FullAt(l, all, k, now) || exists b :: b in m && FullAt(l, all, k, m[b].updated + l.keeping.idle))
  }

  lemma FullLater(l: Limiter, all: Buckets, k: string, s: Time, t: Time)
    requires WellFormed(l) && k in all && s <= t && FullAt(l, all, k, s)
    ensures FullAt(l, all, k, t)
  {
    var limit, b := l.limits(k), all[k];
    if s > b.updated {
      GainAdds(limit.rate, s - b.updated, t - s);
      assert s - b.updated + (t - s) == t - b.updated;
    } else if t > b.updated {
      GainAdds(limit.rate, t - b.updated, 0.0);
    }
    hide Gain;
  }

  lemma OnlyOne(m: Buckets, a: string, b: string)
    requires |m| <= 1 && a in m && b in m
    ensures a == b
  {
    assert m.Keys == {a} + (m.Keys - {a});
    assert |m.Keys - {a}| == |m.Keys| - 1 && |m.Keys| == |m|;
    assert m.Keys - {a} == {};
  }

  // A key that is there is served as ever.
  lemma KnownKeyRecovers(l: Limiter, m: Buckets, all: Buckets, from: Time, call: Call)
    requires WellFormed(l) && l.keeping.WhenCrowded? && Recovers(l, m, all, from) && Before(all, from) && from <= call.at
    requires call.key in m
    ensures var limit := l.limits(call.key);
            && Step(l, m, call).1 == Touch(limit, all, call.key, call.at).1
            && Recovers(l, Step(l, m, call).0, Touch(limit, all, call.key, call.at).0, call.at)
  {
    assert Kept(l.keeping, m, call.key, call.at) == m;
    OnlyKey(m, call.key);
    var bucket := Touch(l.limits(call.key), all, call.key, call.at).0[call.key];
    assert Step(l, m, call).0 == map[call.key := bucket];
    assert Touch(l.limits(call.key), all, call.key, call.at).0 == all[call.key := bucket];
    hide Touch, Step, Kept, Before, Refilled;
    OthersRecover(l, m, all, from, call, bucket);
  }

  lemma OnlyKey(m: Buckets, key: string)
    requires |m| <= 1 && key in m
    ensures m == map[key := m[key]]
  {
    forall k | k in m
      ensures k == key
    {
      OnlyOne(m, k, key);
    }
  }

  lemma OthersRecover(l: Limiter, m: Buckets, all: Buckets, from: Time, call: Call, bucket: Bucket)
    requires WellFormed(l) && l.keeping.WhenCrowded? && Recovers(l, m, all, from) && from <= call.at
    requires call.key in m && m[call.key].updated <= from && bucket.updated == call.at
    ensures Recovers(l, map[call.key := bucket], all[call.key := bucket], call.at)
  {
    var m', all' := map[call.key := bucket], all[call.key := bucket];
    hide Refilled;
    OnlyKey(m, call.key);
    forall k | k in all' && k !in m'
      ensures FullAt(l, all', k, call.at) || exists b :: b in m' && FullAt(l, all', k, m'[b].updated + l.keeping.idle)
    {
      assert all'[k] == all[k] && k !in m;
      if FullAt(l, all, k, from) {
        FullLater(l, all, k, from, call.at);
        assert FullAt(l, all', k, call.at);
      } else {
        FullLater(l, all, k, m[call.key].updated + l.keeping.idle, call.at + l.keeping.idle);
        assert call.key in m' && FullAt(l, all', k, m'[call.key].updated + l.keeping.idle);
      }
    }
  }

  // A key that is not there finds the place free, or its bucket long idle.
  lemma NewKeyRecovers(l: Limiter, m: Buckets, all: Buckets, from: Time, call: Call)
    requires WellFormed(l) && l.keeping.WhenCrowded? && l.keeping.maximum == 1 && TwiceSufficient(l)
    requires Recovers(l, m, all, from) && InRange(l, all) && Before(all, from) && from <= call.at
    requires call.key !in m && Roomy(l.keeping, m, call.key, call.at)
    ensures var limit := l.limits(call.key);
            && Step(l, m, call).1 == Touch(limit, all, call.key, call.at).1
            && Recovers(l, Step(l, m, call).0, Touch(limit, all, call.key, call.at).0, call.at)
  {
    NothingKept(l, m, call);
    ForgottenAreFull(l, m, all, from, call);
    assert Step(l, m, call) == Touch(l.limits(call.key), map[], call.key, call.at);
    assert forall k :: k in m ==> k in all;
    hide Recovers, Kept, Step, InRange, Before, TwiceSufficient, Roomy;
    var bucket := TouchNew(l, all, call);
    NewIsRecovering(l, m, all, call, bucket);
  }

  // A full forgotten bucket and none are the same to the call.
  lemma TouchNew(l: Limiter, all: Buckets, call: Call) returns (bucket: Bucket)
    requires call.key in all ==> FullAt(l, all, call.key, call.at)
    ensures var limit := l.limits(call.key);
            var (m', first) := Touch(limit, map[], call.key, call.at);
            var (all', second) := Touch(limit, all, call.key, call.at);
            first == second && bucket.updated == call.at && m' == map[call.key := bucket] && all' == all[call.key := bucket]
  {
    var limit := l.limits(call.key);
    bucket := Touch(limit, all, call.key, call.at).0[call.key];
  }

  lemma NewIsRecovering(l: Limiter, m: Buckets, all: Buckets, call: Call, bucket: Bucket)
    requires l.keeping.WhenCrowded? && bucket.updated == call.at && call.key !in m
    requires forall k :: k in m ==> k in all
    requires forall k :: k in all && k !in m ==> FullAt(l, all, k, call.at)
    requires forall k :: k in m ==> FullAt(l, all, k, call.at + l.keeping.idle)
    ensures Recovers(l, map[call.key := bucket], all[call.key := bucket], call.at)
  {
    var m', all' := map[call.key := bucket], all[call.key := bucket];
    hide Refilled;
    forall k | k in all' && k !in m'
      ensures FullAt(l, all', k, call.at) || exists b :: b in m' && FullAt(l, all', k, m'[b].updated + l.keeping.idle)
    {
      assert all'[k] == all[k];
      if k in m {
        assert call.key in m' && FullAt(l, all', k, m'[call.key].updated + l.keeping.idle);
      } else {
        assert FullAt(l, all', k, call.at);
      }
    }
  }

  // Whatever is dropped now is full by the time its successor is idle, and
  // whatever was dropped before is full now.
  lemma ForgottenAreFull(l: Limiter, m: Buckets, all: Buckets, from: Time, call: Call)
    requires WellFormed(l) && l.keeping.WhenCrowded? && l.keeping.maximum == 1 && TwiceSufficient(l)
    requires Recovers(l, m, all, from) && InRange(l, all) && Before(all, from) && from <= call.at
    requires forall k :: k in m ==> m[k].updated <= call.at - l.keeping.idle
    ensures forall k :: k in all && k !in m ==> FullAt(l, all, k, call.at)
    ensures forall k :: k in m ==> FullAt(l, all, k, call.at + l.keeping.idle)
  {
    var idle := l.keeping.idle;
    forall k | k in all && k !in m
      ensures FullAt(l, all, k, call.at)
    {
      if FullAt(l, all, k, from) {
        FullLater(l, all, k, from, call.at);
      } else {
        var b :| b in m && FullAt(l, all, k, m[b].updated + idle);
        FullLater(l, all, k, m[b].updated + idle, call.at);
      }
    }
    forall k | k in m
      ensures FullAt(l, all, k, call.at + idle)
    {
      LongIdleIsFull(l.limits(k), all[k], 2.0 * idle, call.at + idle);
    }
  }

  lemma NothingKept(l: Limiter, m: Buckets, call: Call)
    requires l.keeping.WhenCrowded? && l.keeping.maximum == 1 && |m| <= 1
    requires call.key !in m && Roomy(l.keeping, m, call.key, call.at)
    ensures Kept(l.keeping, m, call.key, call.at) == map[]
    ensures forall k :: k in m ==> m[k].updated <= call.at - l.keeping.idle
  {
    var kept := Kept(l.keeping, m, call.key, call.at);
    assert |kept| == 0;
    forall k | k in m
      ensures m[k].updated <= call.at - l.keeping.idle
    {
      assert k !in kept;
    }
  }

  lemma {:induction false} OnePlaceUnobserved(l: Limiter, m: Buckets, all: Buckets, calls: seq<Call>, from: Time)
    requires WellFormed(l) && l.keeping.WhenCrowded? && l.keeping.maximum == 1 && TwiceSufficient(l)
    requires Recovers(l, m, all, from) && InRange(l, all) && Before(all, from) && Clocked(calls, from) && NoEviction(l, m, calls)
    ensures Answers(l, m, calls) == Answers(Ideal(l), all, calls)
    decreases |calls|
  {
    if calls != [] {
      var now := calls[0].at;
      assert Before(all, now);
      StepInRange(Ideal(l), all, calls[0]);
      var m', all' := Step(l, m, calls[0]).0, Step(Ideal(l), all, calls[0]).0;
      assert all' == Touch(l.limits(calls[0].key), all, calls[0].key, now).0;
      if calls[0].key in m {
        KnownKeyRecovers(l, m, all, from, calls[0]);
      } else {
        NewKeyRecovers(l, m, all, from, calls[0]);
      }
      assert InRange(l, all');
      hide Touch, Kept, InRange, Before, TwiceSufficient, Recovers, WellFormed, Roomy;
      OnePlaceUnobserved(l, m', all', calls[1..], now);
    }
  }

  lemma TwiceIsEnough(l: Limiter)
    requires WellFormed(l) && l.keeping.WhenCrowded? && l.keeping.maximum == 1 && TwiceSufficient(l)
    ensures Unobservable(l) && Bounded(l)
  {
    var none: Buckets := map[];
    forall calls, from | Clocked(calls, from) && NoEviction(l, none, calls)
      ensures Answers(l, none, calls) == Answers(Ideal(l), none, calls)
    {
      OnePlaceUnobserved(l, none, none, calls, from);
    }
    forall calls: seq<Call>, from, i, j, key: string
      | Clocked(calls, from) && NoEviction(l, none, calls) && 0 <= i < j <= |calls|
      ensures WindowBound(l.limits(key), calls, Answers(l, none, calls), i, j, key)
    {
      OnePlaceUnobserved(l, none, none, calls, from);
      IdealWindow(Ideal(l), calls, from, i, j, key);
    }
  }

  lemma OnePlaceSpree(l: Limiter, key: string, at: Time) returns (between: seq<Call>)
    requires WellFormed(l) && l.keeping.WhenCrowded? && l.keeping.maximum == 1
    requires at > 2.0 * l.keeping.idle && l.limits(key).capacity > 0
    ensures Clocked(between, 0.0) && End(between, 0.0) <= at
    ensures var m := Final(l, map[], Batch(key, 0.0, l.limits(key).capacity));
            && NoEviction(l, m, between)
            && key !in Kept(l.keeping, Final(l, m, between), key, at)
            && Welcome(l, Final(l, m, between), key, at)
  {
    var c := Call(key + Mark(1), at - l.keeping.idle);
    between := [c];
    var m := FirstSpent(l, key);
    OneCall(l, m, c);
    assert between[1..] == [];
    assert |c.key| == |key| + 1 && c.key !in m;
    assert Kept(l.keeping, m, c.key, c.at) == map[];
    var after := Step(l, m, c).0;
    assert after.Keys == {c.key} && |after| == |after.Keys|;
    assert Kept(l.keeping, after, key, at) == map[];
    var again := Step(l, after, Call(key, at)).0;
    assert again.Keys == {key} && again.Keys - {key} == {};
  }

  // With a single place the same holds exactly when twice the idle time fills
  // every key's bucket.
  lemma OnePlaceExactly(l: Limiter)
    requires WellFormed(l) && l.keeping.WhenCrowded? && l.keeping.maximum == 1
    ensures Unobservable(l) <==> TwiceSufficient(l)
    ensures Bounded(l) <==> TwiceSufficient(l)
  {
    if TwiceSufficient(l) {
      TwiceIsEnough(l);
    } else {
      var key: string :| Gain(l.limits(key).rate, 2.0 * IdleTime(l.keeping)) < l.limits(key).capacity as real;
      var at := TooSoon(l.limits(key), 2.0 * IdleTime(l.keeping));
      var between := OnePlaceSpree(l, key, at);
      hide TwiceSufficient, Unobservable, Bounded, Batch, Gain, Available, Admitted, Answers, Kept, Welcome;
      SpreeAdmitted(l, key, between, at);
      TooMany(l, key, between, at);
    }
  }

  // Where a bucket refills once a minute, the idle time is enough exactly when
  // it is at least a minute.
  lemma AMinuteIsEnough(l: Limiter, key: string)
    requires !l.keeping.Forever?
    requires forall k: string :: l.limits(k).rate == l.limits(k).capacity as real / 60.0
    requires l.limits(key).capacity > 0 && IdleTime(l.keeping) > 0.0
    ensures Sufficient(l) <==> IdleTime(l.keeping) >= 60.0
  {
    var idle := IdleTime(l.keeping);
    forall k: string
      ensures Gain(l.limits(k).rate, idle) == idle / 60.0 * l.limits(k).capacity as real
    {
    }
    forall k: string | idle >= 60.0
      ensures Gain(l.limits(k).rate, idle) >= l.limits(k).capacity as real
    {
      assert idle / 60.0 * l.limits(k).capacity as real >= 1.0 * l.limits(k).capacity as real;
    }
    if idle < 60.0 {
      assert idle / 60.0 * l.limits(key).capacity as real < 1.0 * l.limits(key).capacity as real;
    }
  }
}
