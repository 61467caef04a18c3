// The circuit breaker gateway workers share: one Redis hash per target, changed
// by atomic scripts and dropped by its own expiry.
module SharedCircuit {
  import opened Wrappers

  type Time = real

  datatype Config = Config(threshold: int, cooldown: Time)

  // Any worker asks for the target, or records how a request to it went.
  datatype Op = Ask(token: string, at: Time) | Fail(at: Time) | Succeed(at: Time)

  // An absent hash field reads as zero or empty.
  datatype Hash = Hash(failures: nat, openUntil: Time, probe: string, expiresAt: Time)

  const Fresh := Hash(0, 0.0, "", 0.0)

  function Ttl(c: Config): Time {
    var twice := (c.cooldown * 2.0).Floor + 1;
    if twice > 60 then twice as Time else 60.0
  }

  function Live(h: Option<Hash>, now: Time): Option<Hash> {
    if h.Some? && now < h.value.expiresAt then h else None
  }

  function Fields(h: Option<Hash>): Hash {
    if h.Some? then h.value else Fresh
  }

  function Next(c: Config, stored: Option<Hash>, op: Op): (Option<Hash>, bool) {
    var live := Live(stored, op.at);
    var h := Fields(live);
    match op
    case Ask(token, now) =>
      if h.openUntil > now || (h.openUntil > 0.0 && h.probe != "") then (live, false)
      else if h.openUntil > 0.0 then (Some(h.(probe := token, expiresAt := now + Ttl(c))), true)
      else if live.Some? then (Some(h.(expiresAt := now + Ttl(c))), true)
      else (None, true)
    case Fail(now) =>
      var failed := h.(failures := h.failures + 1, expiresAt := now + Ttl(c));
      if failed.failures >= c.threshold then (Some(failed.(openUntil := now + c.cooldown, probe := "")), false)
      else (Some(failed), false)
    case Succeed(_) => (None, false)
  }

  // A key is kept for twice the cooldown and a second more, in whole seconds, and
  // for a minute at least.
  ghost function KeptFor(cooldown: Time): Time {
    var seconds := (2.0 * cooldown).Floor + 1;
    if seconds >= 60 then seconds as Time else 60.0
  }

  class RedisCircuitKey {
    var hash: Option<Hash>
    const config: Config

    constructor (config: Config)
      ensures hash == None && this.config == config
    {
      this.config := config;
      hash := None;
    }

    method DropExpired(now: Time)
      modifies this
      ensures hash == Live(old(hash), now)
    {
      if hash.Some? && hash.value.expiresAt <= now {
        hash := None;
      }
    }

    method Available(token: string, now: Time) returns (granted: bool)
      modifies this
      ensures (hash, granted) == Next(config, old(hash), Ask(token, now))
      ensures var live := old(hash).Some? && now < old(hash).value.expiresAt;
              var until := if live then old(hash).value.openUntil else 0.0;
              && (granted <==> until <= now && (until <= 0.0 || old(hash).value.probe == ""))
              && (!live ==> hash == None)
              && (live && !granted ==> hash == old(hash))
              && (live && granted ==>
                    hash == Some(old(hash).value.(
                      probe := if old(hash).value.openUntil > 0.0 then token else old(hash).value.probe,
                      expiresAt := now + KeptFor(config.cooldown))))
    {
      DropExpired(now);
      var openUntil := if hash.Some? then hash.value.openUntil else 0.0;
      var probe := if hash.Some? then hash.value.probe else "";
      if openUntil > now {
        return false;
      }
      if openUntil > 0.0 && probe != "" {
        return false;
      }
      if openUntil > 0.0 {
        hash := Some(hash.value.(probe := token));
      }
      if hash.Some? {
        hash := Some(hash.value.(expiresAt := now + Ttl(config)));
      }
      granted := true;
    }

    method RecordFailure(now: Time)
      modifies this
      ensures hash == Next(config, old(hash), Fail(now)).0
      ensures var live := old(hash).Some? && now < old(hash).value.expiresAt;
              var failures := if live then old(hash).value.failures + 1 else 1;
              && hash.Some? && hash.value.failures == failures && hash.value.expiresAt == now + KeptFor(config.cooldown)
              && hash.value.openUntil == (if failures >= config.threshold then now + config.cooldown
                                          else if live then old(hash).value.openUntil else 0.0)
              && hash.value.probe == (if failures >= config.threshold || !live then "" else old(hash).value.probe)
    {
      DropExpired(now);
      var h := if hash.Some? then hash.value else Fresh;
      var failures := h.failures + 1;
      if failures >= config.threshold {
        h := h.(failures := failures, openUntil := now + config.cooldown, probe := "");
      } else {
        h := h.(failures := failures);
      }
      hash := Some(h.(expiresAt := now + Ttl(config)));
    }

    method RecordSuccess(now: Time)
      modifies this
      ensures hash == Next(config, old(hash), Succeed(now)).0
      ensures hash == None
    {
      hash := None;
    }
  }

  // ---------------------------------------------------------------------
  // Runs: the scripts of any number of workers in the order Redis ran them
  // ---------------------------------------------------------------------

  ghost predicate Run(c: Config, ops: seq<Op>) {
    && c.cooldown >= 0.0
    && (forall i :: 0 <= i < |ops| ==> ops[i].at > 0.0)
    && (forall i, j :: 0 <= i < j < |ops| ==> ops[i].at <= ops[j].at)
    && (forall i :: 0 <= i < |ops| && ops[i].Ask? ==> ops[i].token != "")
  }

  function Stored(c: Config, ops: seq<Op>, i: nat): Option<Hash>
    requires i <= |ops|
  {
    if i == 0 then None else Next(c, Stored(c, ops, i - 1), ops[i - 1]).0
  }

  predicate Grants(c: Config, ops: seq<Op>, i: nat)
    requires i < |ops|
  {
    Next(c, Stored(c, ops, i), ops[i]).1
  }

  predicate IsOpen(h: Option<Hash>) {
    h.Some? && h.value.openUntil > 0.0
  }

  // The failure that (re)opens the circuit.
  predicate Trips(c: Config, ops: seq<Op>, i: nat)
    requires i < |ops|
  {
    ops[i].Fail? && IsOpen(Stored(c, ops, i + 1))
  }

  // A request let through while the circuit was open.
  predicate Probes(c: Config, ops: seq<Op>, i: nat)
    requires i < |ops|
  {
    ops[i].Ask? && Grants(c, ops, i) && IsOpen(Live(Stored(c, ops, i), ops[i].at))
  }

  function FailuresSinceSuccess(ops: seq<Op>, i: nat): nat
    requires i <= |ops|
  {
    if i == 0 || ops[i - 1].Succeed? then 0
    else FailuresSinceSuccess(ops, i - 1) + (if ops[i - 1].Fail? then 1 else 0)
  }

  // The key outlives the time the circuit stays open, and an open circuit has
  // seen the threshold's failures.
  ghost predicate Sound(c: Config, h: Option<Hash>) {
    h.Some? && h.value.openUntil > 0.0 ==>
      h.value.openUntil < h.value.expiresAt && h.value.failures >= c.threshold
  }

  lemma TtlOutlastsCooldown(c: Config)
    requires c.cooldown >= 0.0
    ensures Ttl(c) > c.cooldown && Ttl(c) >= 60.0
  {
    assert c.cooldown * 2.0 >= c.cooldown;
  }

  lemma {:induction false} OpenNeedsFailures(c: Config, ops: seq<Op>, i: nat)
    requires Run(c, ops) && i <= |ops|
    ensures Sound(c, Stored(c, ops, i))
    ensures Stored(c, ops, i).Some? ==> Stored(c, ops, i).value.failures <= FailuresSinceSuccess(ops, i)
    ensures IsOpen(Stored(c, ops, i)) ==> FailuresSinceSuccess(ops, i) >= c.threshold
  {
    if i > 0 {
      OpenNeedsFailures(c, ops, i - 1);
      TtlOutlastsCooldown(c);
      hide Ttl;
    }
  }

  lemma {:induction false} StaysOpen(c: Config, ops: seq<Op>, i: nat, k: nat)
    requires Run(c, ops) && i < k <= |ops| && Trips(c, ops, i)
    requires forall m :: i < m < k ==> !ops[m].Succeed?
    requires k - 1 == i || ops[k - 1].at < ops[i].at + c.cooldown
    ensures var h := Stored(c, ops, k);
            h.Some? && ops[i].at + c.cooldown <= h.value.openUntil < h.value.expiresAt
    decreases k
  {
    TtlOutlastsCooldown(c);
    if k - 1 > i {
      StaysOpen(c, ops, i, k - 1);
      hide Ttl;
      OpenNeedsFailures(c, ops, k);
    } else {
      hide Ttl;
      OpenNeedsFailures(c, ops, i);
      assert ops[i].Fail? && Fields(Live(Stored(c, ops, i), ops[i].at)).failures + 1 >= c.threshold;
    }
  }

  // After a trip nothing is granted until the window is over, unless a request
  // that was still under way reports success.
  lemma NoEarlyGrant(c: Config, ops: seq<Op>, i: nat, j: nat)
    requires Run(c, ops) && i < j < |ops| && Trips(c, ops, i) && ops[j].Ask?
    requires forall m :: i < m < j ==> !ops[m].Succeed?
    requires ops[j].at < ops[i].at + c.cooldown
    ensures !Grants(c, ops, j)
  {
    assert ops[j - 1].at <= ops[j].at;
    StaysOpen(c, ops, i, j);
  }

  lemma {:induction false} RefusedChangesNothing(c: Config, ops: seq<Op>, i: nat, k: nat)
    requires Run(c, ops) && i < k <= |ops|
    requires forall m :: i < m < k ==> ops[m].Ask? && !Grants(c, ops, m)
    ensures Stored(c, ops, k) == Stored(c, ops, i + 1)
    decreases k
  {
    if k - 1 > i {
      RefusedChangesNothing(c, ops, i, k - 1);
      hide Ttl;
    }
  }

  // The first request at or after the end of the window is granted, and only
  // then: the window is exactly the cooldown.
  lemma WindowIsExact(c: Config, ops: seq<Op>, i: nat, j: nat)
    requires Run(c, ops) && i < j < |ops| && Trips(c, ops, i) && ops[j].Ask?
    requires forall m :: i < m < j ==> ops[m].Ask? && !Grants(c, ops, m)
    ensures Grants(c, ops, j) <==> ops[j].at >= ops[i].at + c.cooldown
  {
    RefusedChangesNothing(c, ops, i, j);
    OpenNeedsFailures(c, ops, i);
    TtlOutlastsCooldown(c);
    hide Ttl;
  }

  lemma {:induction false} ProbeHolds(c: Config, ops: seq<Op>, i: nat, k: nat)
    requires Run(c, ops) && i < k <= |ops| && Probes(c, ops, i)
    requires forall m :: i < m < k ==> ops[m].Ask?
    requires k - 1 == i || ops[k - 1].at < ops[i].at + Ttl(c)
    ensures var h := Stored(c, ops, k);
            h.Some? && h.value.openUntil > 0.0 && h.value.probe != "" && h.value.expiresAt == ops[i].at + Ttl(c)
    decreases k
  {
    hide Ttl;
    if k - 1 > i {
      ProbeHolds(c, ops, i, k - 1);
    }
  }

  // Once the window is over one probe at a time: without a recorded success or
  // failure nothing more is granted before the key expires.
  lemma SingleProbe(c: Config, ops: seq<Op>, i: nat, j: nat)
    requires Run(c, ops) && i < j < |ops| && Probes(c, ops, i) && ops[j].Ask? && Grants(c, ops, j)
    requires forall m :: i < m < j ==> ops[m].Ask?
    ensures ops[j].at >= ops[i].at + Ttl(c)
  {
    hide Ttl;
    if ops[j].at < ops[i].at + Ttl(c) {
      assert ops[j - 1].at <= ops[j].at;
      ProbeHolds(c, ops, i, j);
    }
  }

  // With fewer failures than the threshold since the last success every
  // request is granted.
  lemma ClosedGrants(c: Config, ops: seq<Op>, i: nat)
    requires Run(c, ops) && i < |ops| && ops[i].Ask? && FailuresSinceSuccess(ops, i) < c.threshold
    ensures Grants(c, ops, i) && !Probes(c, ops, i)
  {
    hide Stored, FailuresSinceSuccess, Ttl;
    OpenNeedsFailures(c, ops, i);
    OpenUntilIsNotNegative(c, ops, i);
  }

  lemma {:induction false} OpenUntilIsNotNegative(c: Config, ops: seq<Op>, i: nat)
    requires Run(c, ops) && i <= |ops|
    ensures Stored(c, ops, i).Some? ==> Stored(c, ops, i).value.openUntil >= 0.0
  {
    if i > 0 {
      hide Ttl;
      OpenUntilIsNotNegative(c, ops, i - 1);
    }
  }

  function FailuresBetween(ops: seq<Op>, from: nat, to: nat): nat
    requires from <= to <= |ops|
  {
    if from == to then 0 else FailuresBetween(ops, from, to - 1) + (if ops[to - 1].Fail? then 1 else 0)
  }

  lemma {:induction false} FailuresKept(c: Config, ops: seq<Op>, s: nat, k: nat)
    requires Run(c, ops) && s < k <= |ops| && ops[s].Fail?
    requires forall m :: s <= m < k ==> !ops[m].Succeed?
    requires ops[k - 1].at < ops[s].at + Ttl(c)
    ensures var h := Stored(c, ops, k);
            && h.Some? && h.value.failures >= FailuresBetween(ops, s, k)
            && h.value.expiresAt >= ops[s].at + Ttl(c)
            && (ops[k - 1].Fail? && h.value.failures >= c.threshold ==> h.value.openUntil == ops[k - 1].at + c.cooldown)
    decreases k
  {
    TtlOutlastsCooldown(c);
    hide Ttl;
    if k - 1 > s {
      assert ops[k - 2].at <= ops[k - 1].at;
      FailuresKept(c, ops, s, k - 1);
    } else {
      assert FailuresBetween(ops, s, s) == 0;
    }
  }

  // The threshold's failures within one lifetime of the key, with no success
  // between them, do open the circuit.
  lemma FailuresTrip(c: Config, ops: seq<Op>, s: nat, i: nat)
    requires Run(c, ops) && s <= i < |ops| && ops[s].Fail? && ops[i].Fail?
    requires forall m :: s <= m <= i ==> !ops[m].Succeed?
    requires ops[i].at < ops[s].at + Ttl(c)
    requires FailuresBetween(ops, s, i + 1) >= c.threshold
    ensures Trips(c, ops, i)
  {
    FailuresKept(c, ops, s, i + 1);
  }
}
