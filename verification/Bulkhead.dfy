// Bulkhead leases gateway workers share: one Redis sorted set per target, with
// the time each lease runs out as its score.
module Bulkhead {
  type Time = real

  datatype Config = Config(limit: nat, lease: Time)

  datatype Op = Acquire(lease: string, at: Time) | Release(lease: string, at: Time)

  type Leases = map<string, Time>

  function Unexpired(leases: Leases, now: Time): Leases {
    map l | l in leases && leases[l] > now :: leases[l]
  }

  // The ideal: a set of leases that never expires as a whole.
  function IdealNext(c: Config, held: Leases, op: Op): (Leases, bool) {
    match op
    case Acquire(lease, now) =>
      if |Unexpired(held, now)| < c.limit then (held[lease := now + c.lease], true) else (held, false)
    case Release(lease, _) => (held - {lease}, false)
  }

  // Redis: a sorted set and the expiry of its key. An empty set is no key.
  datatype Key = Key(leases: Leases, expiresAt: Time)

  function Ceiling(x: real): int {
    -(-x).Floor
  }

  function Present(k: Key, now: Time): Leases {
    if now < k.expiresAt then k.leases else map[]
  }

  function Next(c: Config, k: Key, op: Op): (Key, bool) {
    var present := Present(k, op.at);
    match op
    case Acquire(lease, now) =>
      var kept := Unexpired(present, now);
      if |kept| >= c.limit then (Key(kept, k.expiresAt), false)
      else (Key(kept[lease := now + c.lease], now + Ceiling(c.lease + 1.0) as Time), true)
    case Release(lease, _) => (Key(present - {lease}, k.expiresAt), false)
  }

  class RedisBulkheadKey {
    var leases: Leases
    var expiresAt: Time
    const config: Config

    function State(): Key
      reads this
    {
      Key(leases, expiresAt)
    }

    constructor (config: Config)
      ensures State() == Key(map[], 0.0) && this.config == config
    {
      this.config := config;
      leases, expiresAt := map[], 0.0;
    }

    method DropExpired(now: Time)
      modifies this
      ensures leases == Present(old(State()), now) && expiresAt == old(expiresAt)
    {
      if expiresAt <= now {
        leases := map[];
      }
    }

    method TryAcquire(lease: string, now: Time) returns (granted: bool)
      modifies this
      ensures (State(), granted) == Next(config, old(State()), Acquire(lease, now))
      ensures var live := map l | l in old(leases) && now < old(expiresAt) && old(leases)[l] > now :: old(leases)[l];
              && (granted <==> |live| < config.limit)
              && leases == (if granted then live[lease := now + config.lease] else live)
              && (!granted ==> expiresAt == old(expiresAt))
              && (granted ==> now + config.lease + 1.0 <= expiresAt < now + config.lease + 2.0)
    {
      DropExpired(now);
      leases := map l | l in leases && leases[l] > now :: leases[l];
      assert leases == map l | l in old(leases) && now < old(expiresAt) && old(leases)[l] > now :: old(leases)[l];
      if |leases| >= config.limit {
        return false;
      }
      leases := leases[lease := now + config.lease];
      expiresAt := now + Ceiling(config.lease + 1.0) as Time;
      granted := true;
    }

    method ReleaseLease(lease: string, now: Time)
      modifies this
      ensures State() == Next(config, old(State()), Release(lease, now)).0
      ensures leases == (if now < old(expiresAt) then old(leases) - {lease} else map[]) && expiresAt == old(expiresAt)
    {
      DropExpired(now);
      leases := leases - {lease};
    }
  }

  // ---------------------------------------------------------------------
  // Runs of any number of workers, some of which never release
  // ---------------------------------------------------------------------

  ghost predicate Run(c: Config, ops: seq<Op>) {
    && c.lease > 0.0
    && (forall i, j :: 0 <= i < j < |ops| ==> ops[i].at <= ops[j].at)
    && (forall i, j :: 0 <= i < j < |ops| && ops[i].Acquire? && ops[j].Acquire? ==> ops[i].lease != ops[j].lease)
  }

  function Stored(c: Config, ops: seq<Op>, i: nat): Key
    requires i <= |ops|
  {
    if i == 0 then Key(map[], 0.0) else Next(c, Stored(c, ops, i - 1), ops[i - 1]).0
  }

  predicate Grants(c: Config, ops: seq<Op>, i: nat)
    requires i < |ops|
  {
    Next(c, Stored(c, ops, i), ops[i]).1
  }

  function Held(c: Config, ops: seq<Op>, i: nat): Leases
    requires i <= |ops|
  {
    if i == 0 then map[] else IdealNext(c, Held(c, ops, i - 1), ops[i - 1]).0
  }

  // Purged and expired sets have lost only leases that had run out, and the key
  // outlives every lease in it.
  ghost predicate Matches(c: Config, k: Key, held: Leases, now: Time) {
    && Unexpired(k.leases, now) == Unexpired(held, now)
    && forall l :: l in k.leases ==> k.leases[l] < k.expiresAt && k.leases[l] <= now + c.lease
  }

  lemma PresentMatches(c: Config, k: Key, held: Leases, from: Time, now: Time)
    requires from <= now && Matches(c, k, held, from)
    ensures Unexpired(Present(k, now), now) == Unexpired(held, now)
  {
    var kept, all := Unexpired(k.leases, from), Unexpired(held, from);
    assert Unexpired(k.leases, now) == Unexpired(kept, now);
    assert Unexpired(held, now) == Unexpired(all, now);
    if now >= k.expiresAt {
      assert Unexpired(k.leases, now) == map[];
    }
  }

  lemma AcquireMatches(c: Config, k: Key, held: Leases, from: Time, op: Op)
    requires c.lease > 0.0 && from <= op.at && Matches(c, k, held, from) && op.Acquire?
    ensures Next(c, k, op).1 == IdealNext(c, held, op).1
    ensures Matches(c, Next(c, k, op).0, IdealNext(c, held, op).0, op.at)
  {
    var now := op.at;
    PresentMatches(c, k, held, from, now);
    var kept := Unexpired(Present(k, now), now);
    assert Ceiling(c.lease + 1.0) as Time > c.lease;
    UnexpiredTwice(held, now);
    UnexpiredUpdate(kept, op.lease, now + c.lease, now);
    UnexpiredUpdate(held, op.lease, now + c.lease, now);
    assert forall l :: l in kept ==> l in k.leases && kept[l] == k.leases[l];
    hide Unexpired, Ceiling;
  }

  lemma UnexpiredTwice(leases: Leases, now: Time)
    ensures Unexpired(Unexpired(leases, now), now) == Unexpired(leases, now)
  {
  }

  lemma UnexpiredUpdate(leases: Leases, lease: string, until: Time, now: Time)
    requires until > now
    ensures Unexpired(leases[lease := until], now) == Unexpired(leases, now)[lease := until]
  {
  }

  lemma ReleaseMatches(c: Config, k: Key, held: Leases, from: Time, op: Op)
    requires from <= op.at && Matches(c, k, held, from) && op.Release?
    ensures Matches(c, Next(c, k, op).0, IdealNext(c, held, op).0, op.at)
  {
    var now := op.at;
    var present := Present(k, now);
    PresentMatches(c, k, held, from, now);
    assert Unexpired(present - {op.lease}, now) == Unexpired(present, now) - {op.lease};
    assert Unexpired(held - {op.lease}, now) == Unexpired(held, now) - {op.lease};
  }

  lemma {:induction false} StoredMatches(c: Config, ops: seq<Op>, i: nat, from: Time)
    requires Run(c, ops) && i <= |ops| && (i > 0 ==> ops[i - 1].at == from)
    ensures Matches(c, Stored(c, ops, i), Held(c, ops, i), from)
  {
    if i > 0 {
      var before := if i > 1 then ops[i - 2].at else from;
      StoredMatches(c, ops, i - 1, before);
      hide Matches, Next, IdealNext;
      if ops[i - 1].Acquire? {
        AcquireMatches(c, Stored(c, ops, i - 1), Held(c, ops, i - 1), before, ops[i - 1]);
      } else {
        ReleaseMatches(c, Stored(c, ops, i - 1), Held(c, ops, i - 1), before, ops[i - 1]);
      }
    }
  }

  // Redis grants exactly when fewer than the limit of the leases granted and
  // not released are unexpired: neither the purge nor the key's own expiry
  // ever frees a live one.
  lemma GrantsExactly(c: Config, ops: seq<Op>, i: nat)
    requires Run(c, ops) && i < |ops| && ops[i].Acquire?
    ensures Grants(c, ops, i) <==> |Unexpired(Held(c, ops, i), ops[i].at)| < c.limit
  {
    var from := if i > 0 then ops[i - 1].at else ops[i].at;
    StoredMatches(c, ops, i, from);
    AcquireMatches(c, Stored(c, ops, i), Held(c, ops, i), from, ops[i]);
  }

  // A lease is held if it was granted and nobody released it since, until the
  // time it was granted for is over.
  ghost predicate GrantedAt(c: Config, ops: seq<Op>, i: nat, lease: string, k: nat)
    requires i <= |ops|
  {
    && k < i && ops[k].Acquire? && ops[k].lease == lease && Grants(c, ops, k)
    && forall m :: k < m < i ==> ops[m] != Release(lease, ops[m].at)
  }

  lemma {:induction false} HeldExactly(c: Config, ops: seq<Op>, i: nat, lease: string)
    requires Run(c, ops) && i <= |ops|
    ensures lease in Held(c, ops, i) <==> exists k: nat :: GrantedAt(c, ops, i, lease, k)
    ensures forall k: nat :: GrantedAt(c, ops, i, lease, k) ==> lease in Held(c, ops, i) && Held(c, ops, i)[lease] == ops[k].at + c.lease
  {
    if i > 0 {
      var n := i - 1;
      HeldExactly(c, ops, n, lease);
      HeldStep(c, ops, n, lease);
      hide Held, Grants;
      forall k: nat
        ensures GrantedAt(c, ops, i, lease, k) <==>
                (k == n && ops[n].Acquire? && ops[n].lease == lease && Grants(c, ops, n)) || (GrantedAt(c, ops, n, lease, k) && ops[n] != Release(lease, ops[n].at))
      {
      }
    }
  }

  // Ids are fresh, so a lease just granted was not held before.
  lemma HeldStep(c: Config, ops: seq<Op>, n: nat, lease: string)
    requires Run(c, ops) && n < |ops|
    ensures var before, after := Held(c, ops, n), Held(c, ops, n + 1);
            if ops[n].Acquire? && ops[n].lease == lease && Grants(c, ops, n) then lease in after && after[lease] == ops[n].at + c.lease
            else if ops[n] == Release(lease, ops[n].at) then lease !in after
            else (lease in after <==> lease in before) && (lease in before ==> after[lease] == before[lease])
    ensures ops[n].Acquire? && ops[n].lease == lease ==> forall k: nat :: !GrantedAt(c, ops, n, lease, k)
  {
    if ops[n].Acquire? {
      GrantsExactly(c, ops, n);
    }
    hide Grants;
  }

  // At every instant the unexpired leases number at most the limit.
  lemma {:induction false} WithinLimit(c: Config, ops: seq<Op>, i: nat, now: Time)
    requires Run(c, ops) && i <= |ops| && (i > 0 ==> ops[i - 1].at <= now)
    ensures |Unexpired(Held(c, ops, i), now)| <= c.limit
  {
    if i > 0 {
      var held, held' := Held(c, ops, i - 1), Held(c, ops, i);
      var op := ops[i - 1];
      WithinLimit(c, ops, i - 1, op.at);
      if IdealNext(c, held, op).1 {
        Fewer(Unexpired(held', now) - {op.lease}, Unexpired(held, op.at));
      } else {
        Fewer(Unexpired(held', now), Unexpired(held, op.at));
      }
    }
  }

  lemma Fewer(a: Leases, b: Leases)
    requires a.Keys <= b.Keys
    ensures |a| <= |b|
  {
    assert b.Keys == a.Keys + (b.Keys - a.Keys);
    assert |a.Keys| == |a| && |b.Keys| == |b|;
  }
}
