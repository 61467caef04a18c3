// The ideal bucket refuses no call that it could admit: its answers are the
// most generous ones that keep every window within the bound, and a refused
// call costs nothing.
module GreedyBucket {
  import opened TokenBucket
  import opened ForgetfulBuckets

  // ---------------------------------------------------------------------
  // What there is at any time
  // ---------------------------------------------------------------------

  // When call i was made, or now after the last one.
  function TimeOf(calls: seq<Call>, i: nat, now: Time): Time
    requires i <= |calls|
  {
    if i < |calls| then calls[i].at else now
  }

  // What a bucket that was full at call i has left now: what time added since,
  // less what was admitted.
  function LeftSince(limit: Limit, calls: seq<Call>, answers: seq<bool>, i: nat, now: Time, key: string): real
    requires i <= |calls| == |answers|
  {
    limit.capacity as real + Gain(limit.rate, now - TimeOf(calls, i, now)) - Admitted(key, calls[i..], answers[i..]) as real
  }

  lemma OneMoreCall(l: Limiter, calls: seq<Call>, c: Call)
    ensures Final(l, map[], calls + [c]) == Step(l, Final(l, map[], calls), c).0
    ensures Answers(l, map[], calls + [c]) == Answers(l, map[], calls) + [Step(l, Final(l, map[], calls), c).1]
  {
    Split(l, map[], calls, [c]);
    assert Answers(l, Final(l, map[], calls), [c]) == [Step(l, Final(l, map[], calls), c).1];
  }

  // One more call that is not the key's, or is refused, leaves the count as it is.
  lemma AdmittedMore(key: string, calls: seq<Call>, answers: seq<bool>, c: Call, admitted: bool, i: nat)
    requires i <= |calls| == |answers|
    ensures Admitted(key, (calls + [c])[i..], (answers + [admitted])[i..])
         == Admitted(key, calls[i..], answers[i..]) + (if c.key == key && admitted then 1 else 0)
  {
    assert (calls + [c])[i..] == calls[i..] + [c] && (answers + [admitted])[i..] == answers[i..] + [admitted];
    AdmittedSplit(key, calls[i..], [c], answers[i..], [admitted]);
  }

  // What touching the bucket leaves for any later time.
  lemma AfterTouch(l: Limiter, m: Buckets, c: Call, key: string, now: Time)
    requires WellFormed(l) && l.keeping.Forever? && c.at <= now
    ensures var limit := l.limits(key);
            var (next, admitted) := Step(l, m, c);
            if key == c.key then
              && (admitted <==> Available(limit, m, key, c.at) >= 1.0)
              && Available(limit, next, key, now)
                 == Min(limit.capacity as real, Available(limit, m, key, c.at) - (if admitted then 1.0 else 0.0) + Gain(limit.rate, now - c.at))
            else Available(limit, next, key, now) == Available(limit, m, key, now)
  {
  }

  // At any time there is exactly what is left of a bucket that was full at some
  // earlier call, or is full now.
  lemma {:induction false} TightSince(l: Limiter, calls: seq<Call>, from: Time, key: string, now: Time) returns (i: nat)
    requires WellFormed(l) && l.keeping.Forever? && Clocked(calls, from) && End(calls, from) <= now
    ensures i <= |calls|
    ensures Available(l.limits(key), Final(l, map[], calls), key, now)
         == LeftSince(l.limits(key), calls, Answers(l, map[], calls), i, now, key)
  {
    if calls == [] {
      return 0;
    }
    var n := |calls| - 1;
    var before, c := calls[..n], calls[n];
    assert calls == before + [c];
    ClockedSplit(before, [c], from);
    OneMoreCall(l, before, c);
    var m, answers := Final(l, map[], before), Answers(l, map[], before);
    AfterTouch(l, m, c, key, now);
    var admitted := Step(l, m, c).1;
    assert l.limits(key).rate >= 0.0;
    hide Step, Final, Answers, Available, Gain, Admitted, Clocked, WellFormed;
    if c.key != key {
      i := TightSince(l, before, from, key, now);
      LongerSame(l.limits(key), before, answers, c, admitted, i, now, key);
      if i == n {
        i := n + 1;
      }
    } else {
      i := TightSince(l, before, from, key, c.at);
      TimesGrow(before, from, i, c.at);
      LongerSpent(l.limits(key), before, answers, c, admitted, i, now, key);
      if LeftSince(l.limits(key), calls, answers + [admitted], i, now, key) > l.limits(key).capacity as real {
        i := n + 1;
      }
      NothingSince(l.limits(key), calls, answers + [admitted], now, key);
    }
  }

  lemma NothingSince(limit: Limit, calls: seq<Call>, answers: seq<bool>, now: Time, key: string)
    requires |calls| == |answers|
    ensures LeftSince(limit, calls, answers, |calls|, now, key) == limit.capacity as real
  {
  }

  lemma LongerSame(limit: Limit, calls: seq<Call>, answers: seq<bool>, c: Call, admitted: bool, i: nat, now: Time, key: string)
    requires i <= |calls| == |answers| && c.key != key
    ensures var j := if i == |calls| then i + 1 else i;
            LeftSince(limit, calls + [c], answers + [admitted], j, now, key) == LeftSince(limit, calls, answers, i, now, key)
  {
    if i < |calls| {
      AdmittedMore(key, calls, answers, c, admitted, i);
    }
  }

  lemma LongerSpent(limit: Limit, calls: seq<Call>, answers: seq<bool>, c: Call, admitted: bool, i: nat, now: Time, key: string)
    requires i <= |calls| == |answers| && c.key == key && limit.rate >= 0.0
    requires TimeOf(calls, i, c.at) <= c.at <= now
    ensures LeftSince(limit, calls + [c], answers + [admitted], i, now, key)
         == LeftSince(limit, calls, answers, i, c.at, key) - (if admitted then 1.0 else 0.0) + Gain(limit.rate, now - c.at)
  {
    AdmittedMore(key, calls, answers, c, admitted, i);
    var t := TimeOf(calls, i, c.at);
    assert TimeOf(calls + [c], i, now) == t;
    GainAdds(limit.rate, c.at - t, now - c.at);
    assert (c.at - t) + (now - c.at) == now - t;
    hide Gain, Admitted;
  }

  lemma {:induction false} TimesGrow(calls: seq<Call>, from: Time, i: nat, now: Time)
    requires i <= |calls| && Clocked(calls, from) && End(calls, from) <= now
    ensures from <= TimeOf(calls, i, now) <= now
    decreases |calls|
  {
    if calls != [] {
      assert End(calls[1..], calls[0].at) == End(calls, from);
      TimesGrow(calls[1..], calls[0].at, if i == 0 then 0 else i - 1, now);
    }
  }

  // ---------------------------------------------------------------------
  // The most generous answers within the bound
  // ---------------------------------------------------------------------

  // Admitting call j keeps the window from call i to it within the bound.
  predicate Affordable(limit: Limit, calls: seq<Call>, answers: seq<bool>, i: nat, j: nat, key: string)
    requires i <= j < |calls| == |answers|
  {
    Admitted(key, calls[i..j], answers[i..j]) as real + 1.0
    <= limit.capacity as real + limit.rate * (calls[j].at - calls[i].at)
  }

  // A store that never forgets admits a call exactly when every window that
  // ends with it can afford it: it is never refused for less.
  lemma GreedyExactly(l: Limiter, calls: seq<Call>, from: Time, j: nat)
    requires WellFormed(l) && l.keeping.Forever? && Clocked(calls, from) && j < |calls|
    ensures var key, answers := calls[j].key, Answers(l, map[], calls);
            answers[j] <==> forall i :: 0 <= i <= j ==> Affordable(l.limits(key), calls, answers, i, j, key)
  {
    var key, answers := calls[j].key, Answers(l, map[], calls);
    var limit := l.limits(key);
    if answers[j] {
      forall i | 0 <= i <= j
        ensures Affordable(limit, calls, answers, i, j, key)
      {
        IdealWindow(l, calls, from, i, j + 1, key);
        WindowIsAffordable(limit, calls, answers, from, i, j, key);
      }
    } else {
      var i := RefusedIsOver(l, calls, from, j);
    }
  }

  lemma WindowIsAffordable(limit: Limit, calls: seq<Call>, answers: seq<bool>, from: Time, i: nat, j: nat, key: string)
    requires i <= j < |calls| == |answers| && calls[j].key == key && answers[j] && Clocked(calls, from)
    requires WindowBound(limit, calls, answers, i, j + 1, key)
    ensures Affordable(limit, calls, answers, i, j, key)
  {
    hide Gain, Admitted, Clocked;
    AdmittedLast(key, calls, answers, i, j);
    var window, replies := calls[i..j + 1], answers[i..j + 1];
    assert WithinBound(limit, window, replies, key);
    assert window[0] == calls[i] && window[|window| - 1] == calls[j];
    FirstBeforeLast(calls, from, i, j);
    GainIs(limit.rate, calls[j].at - calls[i].at);
  }

  lemma AdmittedLast(key: string, calls: seq<Call>, answers: seq<bool>, i: nat, j: nat)
    requires i <= j < |calls| == |answers| && calls[j].key == key && answers[j]
    ensures Admitted(key, calls[i..j + 1], answers[i..j + 1]) == Admitted(key, calls[i..j], answers[i..j]) + 1
  {
    assert calls[i..j + 1] == calls[i..j] + [calls[j]] && answers[i..j + 1] == answers[i..j] + [answers[j]];
    AdmittedSplit(key, calls[i..j], [calls[j]], answers[i..j], [answers[j]]);
  }

  lemma GainIs(rate: real, elapsed: Time)
    requires elapsed >= 0.0
    ensures Gain(rate, elapsed) == rate * elapsed
  {
  }

  lemma FirstBeforeLast(calls: seq<Call>, from: Time, i: nat, j: nat)
    requires i <= j < |calls| && Clocked(calls, from)
    ensures calls[i].at <= calls[j].at
  {
    var until := calls[..j + 1];
    assert calls == until + calls[j + 1..];
    ClockedSplit(until, calls[j + 1..], from);
    TimesGrow(until, from, i, calls[j].at);
    assert until[i] == calls[i];
  }

  lemma RefusedIsOver(l: Limiter, calls: seq<Call>, from: Time, j: nat) returns (i: nat)
    requires WellFormed(l) && l.keeping.Forever? && Clocked(calls, from) && j < |calls| && !Answers(l, map[], calls)[j]
    ensures i <= j && !Affordable(l.limits(calls[j].key), calls, Answers(l, map[], calls), i, j, calls[j].key)
  {
    var key, before, now := calls[j].key, calls[..j], calls[j].at;
    AnswerAt(l, calls, from, j);
    AfterTouch(l, Final(l, map[], before), calls[j], key, now);
    hide *;
    i := TightSince(l, before, from, key, now);
    TimesGrow(before, from, i, now);
    TooLittle(l.limits(key), calls, Answers(l, map[], calls), i, j, key);
  }

  lemma TooLittle(limit: Limit, calls: seq<Call>, answers: seq<bool>, i: nat, j: nat, key: string)
    requires i <= j < |calls| == |answers| && TimeOf(calls[..j], i, calls[j].at) <= calls[j].at
    requires LeftSince(limit, calls[..j], answers[..j], i, calls[j].at, key) < 1.0
    ensures !Affordable(limit, calls, answers, i, j, key)
  {
    hide Admitted, Gain;
    assert calls[..j][i..] == calls[i..j] && answers[..j][i..] == answers[i..j];
    assert TimeOf(calls[..j], i, calls[j].at) == calls[i].at;
    GainIs(limit.rate, calls[j].at - calls[i].at);
  }

  lemma AnswerAt(l: Limiter, calls: seq<Call>, from: Time, j: nat)
    requires Clocked(calls, from) && j < |calls|
    ensures Clocked(calls[..j], from) && End(calls[..j], from) <= calls[j].at
    ensures Answers(l, map[], calls)[..j] == Answers(l, map[], calls[..j])
    ensures Answers(l, map[], calls)[j] == Step(l, Final(l, map[], calls[..j]), calls[j]).1
  {
    hide Step;
    var before, m := calls[..j], Final(l, map[], calls[..j]);
    assert calls == before + calls[j..];
    ClockedSplit(before, calls[j..], from);
    Split(l, map[], before, calls[j..]);
    assert Answers(l, m, calls[j..])[0] == Step(l, m, calls[j]).1;
  }

  // ---------------------------------------------------------------------
  // Refused calls cost nothing
  // ---------------------------------------------------------------------

  // Both stores have the same tokens for every key from now on.
  ghost predicate SameFrom(l: Limiter, m1: Buckets, m2: Buckets, now: Time) {
    forall k: string, t: Time :: t >= now ==> Available(l.limits(k), m1, k, t) == Available(l.limits(k), m2, k, t)
  }

  lemma RefusedChangesNothing(l: Limiter, m: Buckets, c: Call)
    requires WellFormed(l) && l.keeping.Forever? && InRange(l, m) && Before(m, c.at) && !Step(l, m, c).1
    ensures SameFrom(l, m, Step(l, m, c).0, c.at)
  {
    var next := Step(l, m, c).0;
    forall k: string, t: Time | t >= c.at
      ensures Available(l.limits(k), m, k, t) == Available(l.limits(k), next, k, t)
    {
      AfterTouch(l, m, c, k, t);
      if k == c.key {
        RefusedRefills(l, m, k, c.at, t);
      }
      hide Step, Available;
    }
  }

  lemma RefusedRefills(l: Limiter, m: Buckets, key: string, s: Time, t: Time)
    requires WellFormed(l) && InRange(l, m) && Before(m, s) && s <= t && Available(l.limits(key), m, key, s) < 1.0
    ensures var limit := l.limits(key);
            Available(limit, m, key, t) == Min(limit.capacity as real, Available(limit, m, key, s) + Gain(limit.rate, t - s))
  {
    var limit := l.limits(key);
    AvailableInRange(l, m, key, s);
    GainAdds(limit.rate, t - s, 0.0);
    if key in m {
      GainAdds(limit.rate, s - m[key].updated, t - s);
      assert s - m[key].updated + (t - s) == t - m[key].updated;
      hide Gain;
    }
  }

  lemma SameStep(l: Limiter, m1: Buckets, m2: Buckets, c: Call, from: Time)
    requires WellFormed(l) && l.keeping.Forever? && SameFrom(l, m1, m2, from) && from <= c.at
    ensures Step(l, m1, c).1 == Step(l, m2, c).1 && SameFrom(l, Step(l, m1, c).0, Step(l, m2, c).0, c.at)
  {
    assert Available(l.limits(c.key), m1, c.key, c.at) == Available(l.limits(c.key), m2, c.key, c.at);
    var n1, n2 := Step(l, m1, c).0, Step(l, m2, c).0;
    forall k: string, t: Time | t >= c.at
      ensures Available(l.limits(k), n1, k, t) == Available(l.limits(k), n2, k, t)
    {
      AfterTouch(l, m1, c, k, t);
      AfterTouch(l, m2, c, k, t);
      assert Available(l.limits(k), m1, k, t) == Available(l.limits(k), m2, k, t);
      hide Step, Available;
    }
    AfterTouch(l, m1, c, c.key, c.at);
    AfterTouch(l, m2, c, c.key, c.at);
  }

  lemma {:induction false} SameAnswers(l: Limiter, m1: Buckets, m2: Buckets, calls: seq<Call>, from: Time)
    requires WellFormed(l) && l.keeping.Forever? && SameFrom(l, m1, m2, from) && Clocked(calls, from)
    ensures Answers(l, m1, calls) == Answers(l, m2, calls)
    decreases |calls|
  {
    if calls != [] {
      SameStep(l, m1, m2, calls[0], from);
      hide Step, SameFrom;
      SameAnswers(l, Step(l, m1, calls[0]).0, Step(l, m2, calls[0]).0, calls[1..], calls[0].at);
    }
  }

  // In a store that never forgets, the answers after a refused call are those
  // without it.
  lemma RefusalIsFree(l: Limiter, a: seq<Call>, c: Call, b: seq<Call>, from: Time)
    requires WellFormed(l) && l.keeping.Forever? && Clocked(a + [c] + b, from)
    requires !Answers(l, map[], a + [c])[|a|]
    ensures Answers(l, map[], a + [c] + b) == Answers(l, map[], a) + [false] + Answers(l, map[], a + b)[|a|..]
  {
    var m := Final(l, map[], a);
    ClockedSplit(a + [c], b, from);
    ClockedSplit(a, [c], from);
    OneMoreCall(l, a, c);
    Paid(l, map[], a, from, c.key);
    assert Before(m, c.at);
    RefusedChangesNothing(l, m, c);
    hide Step, SameFrom, InRange, Before, Available, Admitted, Gain;
    assert Clocked(b, c.at) by { assert (a + [c])[|a|] == c; }
    SameAnswers(l, m, Step(l, m, c).0, b, c.at);
    Split(l, map[], a + [c], b);
    Split(l, map[], a, b);
  }

  // ---------------------------------------------------------------------
  // Refused calls in stores that forget
  // ---------------------------------------------------------------------

  // The answers around a refused call are those without it.
  predicate FreeHere(l: Limiter, a: seq<Call>, c: Call, b: seq<Call>) {
    Answers(l, map[], a + [c] + b) == Answers(l, map[], a) + [false] + Answers(l, map[], a + b)[|a|..]
  }

  ghost predicate RefusalsAreFree(l: Limiter) {
    forall a, c, b, from ::
      && Clocked(a + [c] + b, from) && NoEviction(l, map[], a + [c] + b) && NoEviction(l, map[], a + b)
      && !Answers(l, map[], a + [c])[|a|]
      ==> FreeHere(l, a, c, b)
  }

  lemma WithoutOne(a: seq<Call>, c: Call, b: seq<Call>, from: Time)
    requires Clocked(a + [c] + b, from)
    ensures Clocked(a, from) && Clocked(a + [c], from) && Clocked(a + b, from)
  {
    ClockedSplit(a + [c], b, from);
    ClockedSplit(a, [c], from);
    ClockedSplit(a, b, from);
    assert (a + [c])[|a|] == c;
  }

  lemma SufficientIsFree(l: Limiter, a: seq<Call>, c: Call, b: seq<Call>, from: Time)
    requires WellFormed(l) && Sufficient(l) && Clocked(a + [c] + b, from) && !Answers(l, map[], a + [c])[|a|]
    ensures FreeHere(l, a, c, b)
  {
    hide Step, Answers, Final, NoEviction, Sufficient, WellFormed, Clocked;
    WithoutOne(a, c, b, from);
    assert WellFormed(Ideal(l)) by { IdealWellFormed(l); }
    EmptyShadows(l, from);
    ForgettingUnobserved(l, map[], map[], a + [c] + b, from);
    ForgettingUnobserved(l, map[], map[], a + [c], from);
    ForgettingUnobserved(l, map[], map[], a + b, from);
    ForgettingUnobserved(l, map[], map[], a, from);
    RefusalIsFree(Ideal(l), a, c, b, from);
  }

  lemma IdealWellFormed(l: Limiter)
    requires WellFormed(l)
    ensures WellFormed(Ideal(l))
  {
  }

  lemma EmptyShadows(l: Limiter, from: Time)
    ensures Shadows(l, map[], map[], from) && InRange(l, map[]) && Before(map[], from)
  {
  }

  lemma {:induction false} OneKeyFindsRoom(l: Limiter, m: Buckets, calls: seq<Call>, key: string)
    requires Spacious(l.keeping, m, key) && forall i :: 0 <= i < |calls| ==> calls[i].key == key
    ensures NoEviction(l, m, calls)
    decreases |calls|
  {
    if calls != [] {
      SpaciousIsRoomy(l, m, calls[0]);
      OneKeyFindsRoom(l, Step(l, m, calls[0]).0, calls[1..], key);
    }
  }

  lemma {:induction false} BatchSpends(l: Limiter, m: Buckets, key: string, at: Time, n: nat)
    requires WellFormed(l) && n > 0
    requires Available(l.limits(key), Kept(l.keeping, m, key, at), key, at) >= n as real
    ensures var after := Final(l, m, Batch(key, at, n));
            && JustUsed(after, key, at)
            && after[key].tokens == Available(l.limits(key), Kept(l.keeping, m, key, at), key, at) - n as real
    decreases n
  {
    assert Batch(key, at, n)[1..] == Batch(key, at, n - 1) && Batch(key, at, n)[0] == Call(key, at);
    OneTokenLess(l, m, key, at);
    if n > 1 {
      hide Step, Kept, Available;
      BatchSpends(l, Step(l, m, Call(key, at)).0, key, at, n - 1);
    }
  }

  // With fewer tokens than calls, one is refused.
  lemma {:induction false} BatchFallsShort(l: Limiter, m: Buckets, key: string, at: Time, n: nat)
    requires WellFormed(l) && n > 0
    requires Available(l.limits(key), Kept(l.keeping, m, key, at), key, at) < n as real
    ensures false in Answers(l, m, Batch(key, at, n))
    decreases n
  {
    var calls := Batch(key, at, n);
    assert calls[1..] == Batch(key, at, n - 1) && calls[0] == Call(key, at);
    assert Answers(l, m, calls) == [Step(l, m, calls[0]).1] + Answers(l, Step(l, m, calls[0]).0, calls[1..]);
    if Available(l.limits(key), Kept(l.keeping, m, key, at), key, at) >= 1.0 {
      OneTokenLess(l, m, key, at);
      hide Step, Kept, Available;
      BatchFallsShort(l, Step(l, m, Call(key, at)).0, key, at, n - 1);
      assert false in Answers(l, Step(l, m, calls[0]).0, calls[1..]);
    } else {
      assert Answers(l, m, calls)[0] == false;
    }
  }

  // At e a call finds less than a token in a bucket emptied at 0; at t that
  // bucket is not full again, and is dropped unless it was touched at e.
  ghost predicate Between(limit: Limit, idle: Time, e: Time, t: Time) {
    && 0.0 < e < idle < t && t - e < idle
    && Gain(limit.rate, e) < 1.0 && Gain(limit.rate, t) < limit.capacity as real
  }

  lemma Instants(limit: Limit, idle: Time, at: Time) returns (e: Time, t: Time)
    requires limit.rate >= 0.0 && 0.0 < idle < at && Gain(limit.rate, at) < limit.capacity as real
    ensures Between(limit, idle, e, t)
  {
    e := idle / 2.0;
    if limit.rate > 0.0 {
      var half := HalfToken(limit.rate);
      e := if half < e then half else e;
      GainGrows(limit.rate, e, half);
    }
    t := if at <= idle + e / 2.0 then at else idle + e / 2.0;
    GainGrows(limit.rate, t, at);
  }

  // In this time half a token is added.
  lemma HalfToken(rate: real) returns (e: Time)
    requires rate > 0.0
    ensures e > 0.0 && Gain(rate, e) == 0.5
  {
    e := 0.5 / rate;
    Quotient(0.5, rate);
  }

  lemma Quotient(x: real, y: real)
    requires y > 0.0
    ensures x / y * y == x
  {
  }

  lemma GainGrows(rate: real, a: Time, b: Time)
    requires rate >= 0.0 && 0.0 < a <= b
    ensures Gain(rate, a) <= Gain(rate, b)
  {
  }

  // What is left of an empty bucket that was refused once.
  lemma KeptThroughRefusal(l: Limiter, m: Buckets, key: string, e: Time, t: Time)
    requires WellFormed(l) && (l.keeping.Purging? || l.keeping.Expiring?) && key in m && m[key] == Bucket(0.0, 0.0)
    requires Between(l.limits(key), IdleTime(l.keeping), e, t)
    ensures var (next, admitted) := Step(l, m, Call(key, e));
            && !admitted && Available(l.limits(key), Kept(l.keeping, next, key, t), key, t) < l.limits(key).capacity as real
    ensures key !in Kept(l.keeping, m, key, t)
  {
    var limit := l.limits(key);
    GainAdds(limit.rate, e, t - e);
    assert e + (t - e) == t && e - 0.0 == e;
    hide Gain;
    var kept := Kept(l.keeping, m, key, e);
    assert key in kept && kept[key] == Bucket(0.0, 0.0);
    assert Available(limit, kept, key, e) == Min(limit.capacity as real, Gain(limit.rate, e));
    var next := Step(l, m, Call(key, e)).0;
    assert next[key].updated == e && next[key].tokens <= Gain(limit.rate, e);
  }

  // A store treats refused calls as if they had not been made exactly when the
  // idle time fills every bucket: otherwise a refused call keeps a bucket alive
  // that would have been dropped, and found full, without it.
  lemma RefusalsFreeExactly(l: Limiter)
    requires WellFormed(l) && !l.keeping.Forever? && (l.keeping.WhenCrowded? ==> l.keeping.maximum >= 2)
    ensures RefusalsAreFree(l) <==> Sufficient(l)
  {
    if Sufficient(l) {
      forall a, c, b, from
        | && Clocked(a + [c] + b, from) && NoEviction(l, map[], a + [c] + b) && NoEviction(l, map[], a + b)
          && !Answers(l, map[], a + [c])[|a|]
        ensures FreeHere(l, a, c, b)
      {
        SufficientIsFree(l, a, c, b, from);
      }
    } else {
      var key, at := Insufficient(l);
      var e, t := Instants(l.limits(key), IdleTime(l.keeping), at);
      if l.keeping.WhenCrowded? {
        CrowdedRefusalCosts(l, key, e, t);
      } else {
        RefusalCosts(l, key, e, t);
      }
    }
  }

  lemma RefusalCosts(l: Limiter, key: string, e: Time, t: Time)
    requires WellFormed(l) && (l.keeping.Purging? || l.keeping.Expiring?) && l.limits(key).capacity > 0
    requires Between(l.limits(key), IdleTime(l.keeping), e, t)
    ensures !RefusalsAreFree(l)
  {
    var n := l.limits(key).capacity;
    var a, c, b := Batch(key, 0.0, n), Call(key, e), Batch(key, t, n);
    assert key !in Kept(l.keeping, map[], key, 0.0);
    BatchSpends(l, map[], key, 0.0, n);
    var m := Final(l, map[], a);
    KeptThroughRefusal(l, m, key, e, t);
    hide *;
    BatchFallsShort(l, Step(l, m, c).0, key, t, n);
    AllAdmitted(l, m, key, t, n);
    AroundRefusal(l, key, n, e, t);
    assert false in Answers(l, Step(l, m, c).0, b) && false !in Answers(l, m, b);
    RefusedOnce(l, a, c, b);
  }

  lemma AroundRefusal(l: Limiter, key: string, n: nat, e: Time, t: Time)
    requires WellFormed(l) && n > 0 && 0.0 < e < t
    ensures var a, c, b := Batch(key, 0.0, n), Call(key, e), Batch(key, t, n);
            Clocked(a + [c] + b, 0.0) && NoEviction(l, map[], a + [c] + b) && NoEviction(l, map[], a + b)
  {
    var a, c, b := Batch(key, 0.0, n), Call(key, e), Batch(key, t, n);
    NothingIsSpacious(l, key);
    hide WellFormed, Step, Roomy, NoEviction, Spacious;
    OneKeyFindsRoom(l, map[], a + [c] + b, key);
    OneKeyFindsRoom(l, map[], a + b, key);
    RefusalClocked(key, n, [], e, [], t);
    assert a + [] == a && [] + b == b;
  }

  lemma NothingIsSpacious(l: Limiter, key: string)
    requires WellFormed(l)
    ensures Spacious(l.keeping, map[], key)
  {
    var none: Buckets := map[];
    assert none.Keys - {key} == {};
  }

  lemma RefusalClocked(key: string, n: nat, fillers: seq<Call>, e: Time, after: seq<Call>, t: Time)
    requires n > 0 && 0.0 < e < t
    requires Clocked(fillers, 0.0) && End(fillers, 0.0) == 0.0 && Clocked(after, e) && End(after, e) <= t
    ensures Clocked(Batch(key, 0.0, n) + fillers + [Call(key, e)] + (after + Batch(key, t, n)), 0.0)
  {
    var first, c, last := Batch(key, 0.0, n), Call(key, e), Batch(key, t, n);
    BatchClocked(key, 0.0, n, 0.0);
    ClockedSplit(first, fillers, 0.0);
    var a := first + fillers;
    assert End(a, 0.0) == 0.0;
    assert [c][1..] == [] && Clocked([c], 0.0);
    ClockedSplit(a, [c], 0.0);
    assert End(a + [c], 0.0) == e;
    BatchClocked(key, t, n, End(after, e));
    ClockedSplit(after, last, e);
    ClockedSplit(a + [c], after + last, 0.0);
  }

  lemma RefusedOnce(l: Limiter, a: seq<Call>, c: Call, b: seq<Call>)
    requires Clocked(a + [c] + b, 0.0) && NoEviction(l, map[], a + [c] + b) && NoEviction(l, map[], a + b)
    requires var m := Final(l, map[], a);
             !Step(l, m, c).1 && Answers(l, Step(l, m, c).0, b) != Answers(l, m, b)
    ensures !RefusalsAreFree(l)
  {
    var m := Final(l, map[], a);
    hide Step, Clocked, NoEviction;
    Split(l, map[], a, [c]);
    Split(l, map[], a, b);
    Split(l, map[], a + [c], b);
    assert Answers(l, m, [c]) == [Step(l, m, c).1];
    assert Answers(l, map[], a + b)[|a|..] == Answers(l, m, b);
    assert Answers(l, map[], a + [c] + b)[|a| + 1..] == Answers(l, Step(l, m, c).0, b);
    assert (Answers(l, map[], a) + [false] + Answers(l, m, b))[|a| + 1..] == Answers(l, m, b);
    assert !FreeHere(l, a, c, b);
  }

  // A full store, in which the refused call keeps the key's bucket when a new
  // key drops the idle ones.
  lemma KeptWhenCrowded(l: Limiter, m: Buckets, key: string, e: Time, x: Call)
    requires WellFormed(l) && l.keeping.WhenCrowded? && l.keeping.maximum >= 2
    requires Filled(m, key, l.keeping.maximum - 1) && m[key] == Bucket(0.0, 0.0)
    requires Between(l.limits(key), l.keeping.idle, e, x.at) && |x.key| > |key| + l.keeping.maximum - 1
    ensures var (next, admitted) := Step(l, m, Call(key, e));
            && !admitted && Roomy(l.keeping, m, key, e) && Roomy(l.keeping, next, x.key, x.at)
            && var later := Step(l, next, x).0;
               && Available(l.limits(key), Kept(l.keeping, later, key, x.at), key, x.at) < l.limits(key).capacity as real
               && Spacious(l.keeping, later, key)
  {
    var limit := l.limits(key);
    GainAdds(limit.rate, e, x.at - e);
    assert e + (x.at - e) == x.at && e - 0.0 == e;
    hide Gain;
    assert Available(limit, m, key, e) == Min(limit.capacity as real, Gain(limit.rate, e));
    var next := Step(l, m, Call(key, e)).0;
    assert next.Keys == m.Keys && next[key].updated == e && next[key].tokens <= Gain(limit.rate, e);
    assert |next| == |next.Keys| && |m| == |m.Keys| && x.key !in m;
    var kept := Kept(l.keeping, next, x.key, x.at);
    assert kept.Keys == {key} && |kept| == |kept.Keys| == 1;
    var later := Step(l, next, x).0;
    assert later.Keys - {key} == {x.key};
  }

  lemma CrowdedRefusalCosts(l: Limiter, key: string, e: Time, t: Time)
    requires WellFormed(l) && l.keeping.WhenCrowded? && l.keeping.maximum >= 2 && l.limits(key).capacity > 0
    requires Between(l.limits(key), l.keeping.idle, e, t)
    ensures !RefusalsAreFree(l)
  {
    var n, others := l.limits(key).capacity, l.keeping.maximum - 1;
    var c, x := Call(key, e), Call(key + Mark(others + 1), t);
    var a, b := Batch(key, 0.0, n) + Fillers(key, others), [x] + Batch(key, t, n);
    assert |x.key| == |key| + others + 1 && x.at > l.keeping.idle > e > 0.0;
    hide *;
    var m := FullStore(l, key);
    CrowdedAnswers(l, m, key, e, x);
    FillersClocked(key, others);
    OneClocked(x, e);
    RefusalClocked(key, n, Fillers(key, others), e, [x], t);
    RefusedLater(l, a, c, b);
  }

  lemma RefusedLater(l: Limiter, a: seq<Call>, c: Call, b: seq<Call>)
    requires Clocked(a + [c] + b, 0.0) && NoEviction(l, map[], a)
    requires var m := Final(l, map[], a);
             && NoEviction(l, m, b) && NoEviction(l, m, [c] + b)
             && !Step(l, m, c).1 && Answers(l, Step(l, m, c).0, b) != Answers(l, m, b)
    ensures !RefusalsAreFree(l)
  {
    hide *;
    EvictionSplit(l, map[], a, b);
    EvictionSplit(l, map[], a, [c] + b);
    assert a + [c] + b == a + ([c] + b);
    RefusedOnce(l, a, c, b);
  }

  lemma CrowdedAnswers(l: Limiter, m: Buckets, key: string, e: Time, x: Call)
    requires WellFormed(l) && l.keeping.WhenCrowded? && l.keeping.maximum >= 2 && l.limits(key).capacity > 0
    requires Filled(m, key, l.keeping.maximum - 1) && m[key] == Bucket(0.0, 0.0)
    requires Between(l.limits(key), l.keeping.idle, e, x.at) && |x.key| > |key| + l.keeping.maximum - 1
    requires x.at > l.keeping.idle > 0.0
    ensures var c, b := Call(key, e), [x] + Batch(key, x.at, l.limits(key).capacity);
            && NoEviction(l, m, b) && NoEviction(l, m, [c] + b)
            && !Step(l, m, c).1 && Answers(l, Step(l, m, c).0, b) != Answers(l, m, b)
  {
    var n, c := l.limits(key).capacity, Call(key, e);
    var next, last := Step(l, m, c).0, Batch(key, x.at, n);
    KeptWhenCrowded(l, m, key, e, x);
    FullEmpties(l, m, key, x);
    hide *;
    AfterBoth(l, m, key, c, x, n);
    FromHere(l, m, x, last);
    FromHere(l, next, x, last);
    BatchFallsShort(l, Step(l, next, x).0, key, x.at, n);
    AllAdmitted(l, Step(l, m, x).0, key, x.at, n);
  }

  lemma OneClocked(x: Call, from: Time)
    requires from <= x.at
    ensures Clocked([x], from) && End([x], from) == x.at
  {
    assert [x][1..] == [];
  }

  lemma FromHere(l: Limiter, m: Buckets, x: Call, rest: seq<Call>)
    ensures Answers(l, m, [x] + rest)[1..] == Answers(l, Step(l, m, x).0, rest)
    ensures NoEviction(l, m, [x] + rest) <==> Roomy(l.keeping, m, x.key, x.at) && NoEviction(l, Step(l, m, x).0, rest)
  {
    hide Step, Roomy;
    assert ([x] + rest)[1..] == rest;
  }

  // The store is full, and the key's bucket empty.
  lemma FullStore(l: Limiter, key: string) returns (m: Buckets)
    requires WellFormed(l) && l.keeping.WhenCrowded? && l.keeping.maximum >= 2 && l.limits(key).capacity > 0
    ensures var a := Batch(key, 0.0, l.limits(key).capacity) + Fillers(key, l.keeping.maximum - 1);
            NoEviction(l, map[], a) && m == Final(l, map[], a)
    ensures Filled(m, key, l.keeping.maximum - 1) && m[key] == Bucket(0.0, 0.0)
  {
    var spent, fillers := Batch(key, 0.0, l.limits(key).capacity), Fillers(key, l.keeping.maximum - 1);
    var first := FirstSpent(l, key);
    assert key !in Kept(l.keeping, map[], key, 0.0);
    BatchSpends(l, map[], key, 0.0, l.limits(key).capacity);
    NothingIsSpacious(l, key);
    assert first[key] == Bucket(0.0, 0.0);
    OneKeyFindsRoom(l, map[], spent, key);
    hide *;
    FillersFill(l, first, key, l.keeping.maximum - 1);
    Split(l, map[], spent, fillers);
    EvictionSplit(l, map[], spent, fillers);
    m := Final(l, map[], spent + fillers);
  }

  // What follows finds room with the refused call and without it.
  lemma AfterBoth(l: Limiter, m: Buckets, key: string, c: Call, x: Call, n: nat)
    requires Roomy(l.keeping, m, c.key, c.at)
    requires Roomy(l.keeping, m, x.key, x.at) && Welcome(l, Step(l, m, x).0, key, x.at)
    requires var next := Step(l, m, c).0; Roomy(l.keeping, next, x.key, x.at) && Spacious(l.keeping, Step(l, next, x).0, key)
    ensures var b := [x] + Batch(key, x.at, n); NoEviction(l, m, b) && NoEviction(l, m, [c] + b)
  {
    var next, last := Step(l, m, c).0, Batch(key, x.at, n);
    if n > 0 {
      WelcomeBatch(l, Step(l, m, x).0, key, x.at, n);
    }
    hide Step, Roomy, NoEviction, Spacious, Welcome;
    OneKeyFindsRoom(l, Step(l, next, x).0, last, key);
    FromHere(l, m, x, last);
    FromHere(l, next, x, last);
    FromHere(l, m, c, [x] + last);
  }

  lemma WelcomeBatch(l: Limiter, m: Buckets, key: string, at: Time, n: nat)
    requires Welcome(l, m, key, at) && n > 0
    ensures NoEviction(l, m, Batch(key, at, n))
  {
    var calls := Batch(key, at, n);
    assert calls[0] == Call(key, at);
    OneKeyFindsRoom(l, Step(l, m, calls[0]).0, calls[1..], key);
  }

  // A key that was forgotten has a full bucket.
  lemma AllAdmitted(l: Limiter, m: Buckets, key: string, at: Time, n: nat)
    requires WellFormed(l) && key !in Kept(l.keeping, m, key, at) && n == l.limits(key).capacity > 0
    ensures false !in Answers(l, m, Batch(key, at, n))
  {
    BatchGetsThrough(l, m, key, at, n);
  }

  lemma {:induction false} BatchGetsThrough(l: Limiter, m: Buckets, key: string, at: Time, n: nat)
    requires WellFormed(l) && Available(l.limits(key), Kept(l.keeping, m, key, at), key, at) >= n as real
    ensures false !in Answers(l, m, Batch(key, at, n))
    decreases n
  {
    if n > 0 {
      var calls := Batch(key, at, n);
      assert calls[1..] == Batch(key, at, n - 1) && calls[0] == Call(key, at);
      assert Answers(l, m, calls) == [Step(l, m, calls[0]).1] + Answers(l, Step(l, m, calls[0]).0, calls[1..]);
      OneTokenLess(l, m, key, at);
      hide Step, Kept, Available;
      BatchGetsThrough(l, Step(l, m, Call(key, at)).0, key, at, n - 1);
    }
  }
}
