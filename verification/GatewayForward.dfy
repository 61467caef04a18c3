// Forwarding one request: walk the available targets, take a slot, send, give
// the slot back. Other requests run whenever this one waits.
module GatewayForward {
  import opened Wrappers

  type Time = real

  // Whoever holds a slot is a request, known by a number.
  type RequestId = nat

  class Target {
    const maxConcurrency: nat
    const failureThreshold: int
    const cooldown: Time
    var permits: nat
    var failures: int
    var openedAt: Option<Time>
    var held: set<RequestId>
    ghost var sentBy: multiset<RequestId>

    ghost predicate Valid()
      reads this
    {
      |held| + permits == maxConcurrency
    }

    constructor (maxConcurrency: nat, failureThreshold: int, cooldown: Time)
      ensures Valid() && held == {} && openedAt == None && failures == 0
    {
      this.maxConcurrency, this.failureThreshold, this.cooldown := maxConcurrency, failureThreshold, cooldown;
      permits, failures, openedAt, held, sentBy := maxConcurrency, 0, None, {}, multiset{};
    }

    // A slot without waiting; none when all of them are held.
    method TryAcquire(me: RequestId) returns (acquired: bool)
      requires Valid() && me !in held
      modifies this`permits, this`held
      ensures Valid()
      ensures acquired <==> |old(held)| < maxConcurrency
      ensures held == if acquired then old(held) + {me} else old(held)
    {
      if permits == 0 {
        return false;
      }
      permits, held := permits - 1, held + {me};
      acquired := true;
    }

    // Only a holder may give its slot back, so never twice.
    method ReleaseSlot(me: RequestId)
      requires Valid() && me in held
      modifies this`permits, this`held
      ensures Valid() && held == old(held) - {me}
    {
      permits, held := permits + 1, held - {me};
    }

    function State(): Breaker
      reads this
    {
      Breaker(failures, openedAt)
    }

    method Available(now: Time) returns (available: bool)
      modifies this`failures, this`openedAt
      ensures (State(), available) == Asked(old(State()), failureThreshold, cooldown, now)
      ensures available <==> old(openedAt).None? || now - old(openedAt).value >= cooldown
      ensures old(openedAt).Some? && available ==> openedAt.None? && failures == failureThreshold - 1
      ensures old(openedAt).None? || !available ==> openedAt == old(openedAt) && failures == old(failures)
    {
      if openedAt.None? {
        return true;
      }
      if now - openedAt.value >= cooldown {
        openedAt := None;
        failures := failureThreshold - 1;
        return true;
      }
      available := false;
    }

    // `mark` is the verdict that was recorded.
    method RecordSuccess() returns (ghost mark: bool)
      modifies this`failures, this`openedAt
      ensures State() == Succeeded() && mark
      ensures failures == 0 && openedAt.None?
    {
      failures, openedAt := 0, None;
      mark := true;
    }

    method RecordFailure(now: Time) returns (ghost mark: bool)
      modifies this`failures, this`openedAt
      ensures State() == Failed(old(State()), failureThreshold, now) && !mark
      ensures failures == old(failures) + 1
      ensures openedAt == if old(failures) + 1 >= failureThreshold then Some(now) else old(openedAt)
    {
      failures := failures + 1;
      if failures >= failureThreshold {
        openedAt := Some(now);
      }
      mark := false;
    }
  }

  // ---------------------------------------------------------------------
  // The process-local breaker
  // ---------------------------------------------------------------------

  datatype Breaker = Breaker(failures: int, openedAt: Option<Time>)

  function Asked(b: Breaker, threshold: int, cooldown: Time, now: Time): (Breaker, bool) {
    if b.openedAt.None? then (b, true)
    else if now - b.openedAt.value >= cooldown then (Breaker(threshold - 1, None), true)
    else (b, false)
  }

  function Succeeded(): Breaker {
    Breaker(0, None)
  }

  function Failed(b: Breaker, threshold: int, now: Time): Breaker {
    Breaker(b.failures + 1, if b.failures + 1 >= threshold then Some(now) else b.openedAt)
  }

  function AfterAsks(b: Breaker, threshold: int, cooldown: Time, asks: seq<Time>): Breaker {
    if asks == [] then b
    else Asked(AfterAsks(b, threshold, cooldown, asks[..|asks| - 1]), threshold, cooldown, asks[|asks| - 1]).0
  }

  // Tripped at `at` and asked any number of times since, in time order: the
  // next request is let through exactly once the cooldown is over, all further
  // ones too, and then a single failure trips the breaker again.
  lemma {:induction false} LocalWindowIsExact(b: Breaker, threshold: int, cooldown: Time, asks: seq<Time>, now: Time)
    requires b.openedAt.Some?
    requires forall i :: 0 <= i < |asks| ==> asks[i] <= now
    ensures var before := AfterAsks(b, threshold, cooldown, asks);
            var (after, available) := Asked(before, threshold, cooldown, now);
            && (available <==> now - b.openedAt.value >= cooldown)
            && (before == b || before == Breaker(threshold - 1, None))
            && (before != b ==> now - b.openedAt.value >= cooldown)
            && (available ==> forall later :: Failed(after, threshold, later).openedAt == Some(later))
  {
    if asks != [] {
      var last := asks[|asks| - 1];
      if forall i :: 0 <= i < |asks| - 1 ==> asks[i] <= last {
        LocalWindowIsExact(b, threshold, cooldown, asks[..|asks| - 1], last);
      } else {
        LocalWindowIsExact(b, threshold, cooldown, asks[..|asks| - 1], now);
      }
    }
  }

  function AfterFailures(threshold: int, times: seq<Time>): Breaker {
    if times == [] then Succeeded()
    else Failed(AfterFailures(threshold, times[..|times| - 1]), threshold, times[|times| - 1])
  }

  // Since a success the breaker lets every request through until as many
  // failures as the threshold were recorded, and the last of these opens it.
  lemma {:induction false} OpensAtThreshold(threshold: int, times: seq<Time>, cooldown: Time, now: Time)
    requires threshold >= 1
    ensures var b := AfterFailures(threshold, times);
            && b.failures == |times|
            && b.openedAt == (if |times| >= threshold then Some(times[|times| - 1]) else None)
            && (|times| < threshold ==> Asked(b, threshold, cooldown, now) == (b, true))
  {
    if times != [] {
      OpensAtThreshold(threshold, times[..|times| - 1], cooldown, now);
    }
  }

  // ---------------------------------------------------------------------
  // Rotation
  // ---------------------------------------------------------------------

  function Rotated<T>(s: seq<T>, start: nat): seq<T>
    requires start <= |s|
  {
    s[start..] + s[..start]
  }

  lemma RotationIsPermutation<T>(s: seq<T>, start: nat)
    requires start <= |s|
    ensures multiset(Rotated(s, start)) == multiset(s)
  {
    assert s == s[..start] + s[start..];
  }

  // The counter after k selections among n available targets.
  function Turn(counter: nat, n: nat, k: nat): nat
    requires n > 0
  {
    if k == 0 then counter else Turn(counter, n, k - 1) % n + 1
  }

  function StartOf(counter: nat, n: nat, k: nat): nat
    requires n > 0
  {
    Turn(counter, n, k) % n
  }

  lemma {:induction false} StartAdvances(counter: nat, n: nat, k: nat)
    requires n > 0
    ensures StartOf(counter, n, k) < n
    ensures k < n ==> StartOf(counter, n, k) ==
                      (if counter % n + k < n then counter % n + k else counter % n + k - n)
  {
    if k > 0 {
      StartAdvances(counter, n, k - 1);
      var before := StartOf(counter, n, k - 1);
      assert Turn(counter, n, k) == before + 1;
      assert StartOf(counter, n, k) == (before + 1) % n;
      hide StartOf, Turn;
      Wrap(before + 1, n);
    }
  }

  lemma Wrap(x: nat, n: nat)
    requires x <= n && n > 0
    ensures x % n == if x < n then x else 0
  {
  }

  // Of n successive selections among n available targets each starts at
  // another one, so every target is first exactly once.
  lemma EachStartsOnce(counter: nat, n: nat, target: nat)
    requires target < n
    ensures exists k: nat :: k < n && StartOf(counter, n, k) == target
    ensures forall j: nat, k: nat :: j < k < n ==> StartOf(counter, n, j) != StartOf(counter, n, k)
  {
    var first := counter % n;
    var k: nat := if target >= first then target - first else target - first + n;
    StartAdvances(counter, n, k);
    assert StartOf(counter, n, k) == target;
    forall j: nat, k: nat | j < k < n
      ensures StartOf(counter, n, j) != StartOf(counter, n, k)
    {
      StartAdvances(counter, n, j);
      StartAdvances(counter, n, k);
    }
  }

  // ---------------------------------------------------------------------
  // One request
  // ---------------------------------------------------------------------

  // `Unread` is a failed event stream whose body could not be read: the
  // exception leaves the gateway.
  datatype Upstream = TransportError | Answered(status: int, content: string) | Unread(status: int)

  datatype Visit = Unavailable | Saturated | StoreFailed | Sent(outcome: Upstream)

  datatype Response = Reply(status: int, content: string) | Stream(status: int) | Raised

  const MaxBodyBytes := 10 * 1024 * 1024

  // Safe methods (section 9.2.1 of RFC 9110) and requests with an idempotency
  // key; header names are in lower case here.
  predicate Repeatable(httpMethod: string, headers: set<string>) {
    httpMethod == "GET" || httpMethod == "HEAD" || "idempotency-key" in headers
  }

  predicate Decides(v: Visit) {
    v.StoreFailed? || (v.Sent? && (v.outcome.Unread? || (v.outcome.Answered? && v.outcome.status < 500)))
  }

  function Decision(v: Visit, wantsStream: bool): Response
    requires Decides(v)
  {
    if v.StoreFailed? then Reply(503, "gateway state unavailable")
    else if v.outcome.Unread? then Raised
    else if wantsStream then Stream(v.outcome.status)
    else Reply(v.outcome.status, v.outcome.content)
  }

  // What is reported when no target answered well: the last failure an
  // upstream reported itself.
  function LastFailure(log: seq<Visit>): Response {
    if log == [] then Reply(503, "no upstream accepted the call")
    else
      match log[|log| - 1]
      case Sent(Answered(status, content)) => Reply(status, content)
      case _ => LastFailure(log[..|log| - 1])
  }

  // The verdicts to be recorded once the visits are over.
  function Verdicts(log: seq<Visit>): seq<bool> {
    if log == [] then []
    else Verdicts(log[..|log| - 1]) + Verdict(log[|log| - 1])
  }

  function Verdict(v: Visit): seq<bool> {
    match v
    case Sent(TransportError) => [false]
    case Sent(Answered(status, _)) => [status < 500]
    case _ => []
  }

  // The response that visiting n targets in order, this far, leads to.
  predicate Answers(log: seq<Visit>, n: nat, wantsStream: bool, r: Response) {
    && |log| <= n
    && (forall i :: 0 <= i < |log| - 1 ==> !Decides(log[i]))
    && if log != [] && Decides(log[|log| - 1]) then r == Decision(log[|log| - 1], wantsStream)
       else |log| == n && r == LastFailure(log)
  }

  predicate AnswersWell(v: Visit) {
    v.Sent? && v.outcome.Answered? && v.outcome.status < 500
  }

  // The last visit at which an upstream answered at all.
  predicate LastAnswer(log: seq<Visit>, k: nat) {
    && k < |log| && log[k].Sent? && log[k].outcome.Answered?
    && forall j :: k < j < |log| ==> !(log[j].Sent? && log[j].outcome.Answered?)
  }

  lemma {:induction false} LastFailureIs(log: seq<Visit>)
    ensures forall k :: 0 <= k < |log| && LastAnswer(log, k) ==> LastFailure(log) == Reply(log[k].outcome.status, log[k].outcome.content)
    ensures (forall k :: 0 <= k < |log| ==> !(log[k].Sent? && log[k].outcome.Answered?)) ==>
              LastFailure(log) == Reply(503, "no upstream accepted the call")
  {
    if log != [] {
      var n := |log| - 1;
      LastFailureIs(log[..n]);
      forall k | 0 <= k < n && LastAnswer(log, k)
        ensures LastAnswer(log[..n], k) && log[..n][k] == log[k]
      {
      }
    }
  }

  // What the response is: the first answer below 500, as a stream or whole, ends
  // the walk; so do an error of the shared state and a failed stream that cannot
  // be read. Otherwise all targets were visited, and the last answer of 500 or
  // more is passed on, or a 503 if there was none.
  lemma ResponseIs(log: seq<Visit>, n: nat, wantsStream: bool, r: Response)
    requires Answers(log, n, wantsStream, r)
    ensures |log| <= n
    ensures forall k :: 0 <= k < |log| && AnswersWell(log[k]) ==>
              k == |log| - 1 && r == if wantsStream then Stream(log[k].outcome.status) else Reply(log[k].outcome.status, log[k].outcome.content)
    ensures forall k :: 0 <= k < |log| && log[k].StoreFailed? ==> k == |log| - 1 && r == Reply(503, "gateway state unavailable")
    ensures forall k :: 0 <= k < |log| && log[k].Sent? && log[k].outcome.Unread? ==> k == |log| - 1 && r == Raised
    ensures (forall k :: 0 <= k < |log| ==> !AnswersWell(log[k]) && !log[k].StoreFailed? && !(log[k].Sent? && log[k].outcome.Unread?)) ==>
              && |log| == n
              && (forall k :: 0 <= k < |log| && LastAnswer(log, k) ==> r == Reply(log[k].outcome.status, log[k].outcome.content))
              && ((forall k :: 0 <= k < |log| ==> !(log[k].Sent? && log[k].outcome.Answered?)) ==> r == Reply(503, "no upstream accepted the call"))
  {
    LastFailureIs(log);
    hide LastFailure;
  }

  ghost predicate AllValid(targets: seq<Target>)
    reads targets
  {
    forall t :: t in targets ==> t.Valid()
  }

  // The request holds a slot of this target and of no other.
  ghost predicate HoldsOnly(targets: seq<Target>, me: RequestId, holding: Option<Target>)
    reads targets
  {
    forall t :: t in targets ==> (me in t.held <==> holding == Some(t))
  }

  // The request has not been sent anywhere else in the meantime.
  twostate predicate NothingSent(targets: seq<Target>, me: RequestId)
    reads targets
  {
    forall t :: t in targets ==> t.sentBy[me] == old(t.sentBy[me])
  }

  // The request has been sent to this target once more.
  twostate predicate SentTo(targets: seq<Target>, me: RequestId, to: Target)
    reads targets
  {
    forall t :: t in targets ==> t.sentBy[me] == old(t.sentBy[me]) + (if t == to then 1 else 0)
  }

  // How often the walk so far has sent to this target.
  function Sends(log: seq<Visit>, attempts: seq<Target>, t: Target): nat
    requires |log| <= |attempts|
  {
    if log == [] then 0
    else
      var n := |log| - 1;
      Sends(log[..n], attempts, t) + (if log[n].Sent? && attempts[n] == t then 1 else 0)
  }

  // Since the start, `base`, the request was sent to each target as often as
  // the log says.
  ghost predicate Tallied(targets: seq<Target>, me: RequestId, base: map<Target, nat>, log: seq<Visit>, attempts: seq<Target>)
    requires |log| <= |attempts|
    reads targets
  {
    forall t :: t in targets ==> t in base && t.sentBy[me] == base[t] + Sends(log, attempts, t)
  }

  ghost function Counts(targets: seq<Target>, me: RequestId): map<Target, nat>
    reads targets
  {
    map t | t in targets :: t.sentBy[me]
  }

  // Nothing decided yet: the response so far and the verdicts recorded.
  predicate Undecided(log: seq<Visit>, response: Response, marks: seq<bool>) {
    && (forall k :: 0 <= k < |log| ==> !Decides(log[k]))
    && response == LastFailure(log) && response.Reply?
    && marks == Verdicts(log)
  }

  function Updated(response: Response, v: Visit): Response {
    if v.Sent? && v.outcome.Answered? then Reply(v.outcome.status, v.outcome.content) else response
  }

  // A visit that decides ends the walk; one that does not leaves a plain reply.
  lemma VisitLogged(log: seq<Visit>, v: Visit, n: nat, wantsStream: bool, response: Response, marks: seq<bool>)
    requires |log| < n && Undecided(log, response, marks)
    ensures !Decides(v) ==> Undecided(log + [v], Updated(response, v), marks + Verdict(v)) && !Streams(v, wantsStream)
    ensures Decides(v) ==> Answers(log + [v], n, wantsStream, Decision(v, wantsStream))
    ensures Decides(v) ==> (Streams(v, wantsStream) <==> Decision(v, wantsStream).Stream?)
    ensures marks + Verdict(v) == Verdicts(log + [v])
    ensures Streams(v, wantsStream) ==> Verdict(v) == [true]
  {
    assert (log + [v])[..|log|] == log;
  }

  lemma Exhausted(log: seq<Visit>, response: Response, marks: seq<bool>, wantsStream: bool)
    requires Undecided(log, response, marks)
    ensures Answers(log, |log|, wantsStream, response) && response.Reply? && marks == Verdicts(log)
  {
  }

  lemma LogGrows(log: seq<Visit>, v: Visit, attempts: seq<Target>)
    requires |log| < |attempts|
    ensures forall t :: Sends(log + [v], attempts, t) ==
                        Sends(log, attempts, t) + (if v.Sent? && attempts[|log|] == t then 1 else 0)
  {
    assert (log + [v])[..|log|] == log;
  }

  lemma {:induction false} SendsOfPrefix(log: seq<Visit>, attempts: seq<Target>, all: seq<Target>)
    requires |log| <= |attempts| && attempts <= all
    ensures forall t :: Sends(log, attempts, t) == Sends(log, all, t)
  {
    if log != [] {
      SendsOfPrefix(log[..|log| - 1], attempts, all);
    }
  }

  // A request for which at most one target is visited is sent at most once.
  lemma OneSendAtMost(log: seq<Visit>, attempts: seq<Target>, t: Target)
    requires |log| <= |attempts| && |log| <= 1
    ensures Sends(log, attempts, t) <= 1
    ensures forall u :: u != t && Sends(log, attempts, t) == 1 ==> Sends(log, attempts, u) == 0
  {
    if log != [] {
      assert log[..|log| - 1] == [];
    }
  }

  // Entries for different targets are each sent to at most once.
  lemma {:induction false} OneSendEach(log: seq<Visit>, attempts: seq<Target>, t: Target)
    requires |log| <= |attempts|
    requires forall i, j :: 0 <= i < j < |attempts| ==> attempts[i] != attempts[j]
    ensures Sends(log, attempts, t) <= 1
    ensures Sends(log, attempts, t) == 1 ==> exists k :: 0 <= k < |log| && attempts[k] == t && log[k].Sent?
  {
    if log != [] {
      OneSendEach(log[..|log| - 1], attempts, t);
      if log[|log| - 1].Sent? && attempts[|log| - 1] == t {
        assert Sends(log[..|log| - 1], attempts, t) == 0;
      }
    }
  }

  class Gateway {
    // Whether workers share their state in Redis.
    const shared: bool
    var roundRobin: map<string, nat>

    constructor (shared: bool)
      ensures this.shared == shared && roundRobin == map[]
    {
      this.shared, this.roundRobin := shared, map[];
    }

    // Other requests run: they take and give back their own slots and record
    // their own verdicts.
    method Interfere(targets: seq<Target>, me: RequestId)
      requires AllValid(targets)
      modifies targets
      ensures AllValid(targets)
      ensures forall t :: t in targets ==> (me in t.held <==> me in old(t.held))
      ensures NothingSent(targets, me)
    {
      var steps: nat := *;
      while steps > 0
        invariant AllValid(targets)
        invariant forall t :: t in targets ==> (me in t.held <==> me in old(t.held))
        invariant NothingSent(targets, me)
      {
        var other: RequestId, which: nat, now: Time, step: nat := *, *, *, *;
        if which < |targets| && other != me {
          Disturb(targets[which], other, now, step);
        }
        steps := steps - 1;
      }
    }

    method Disturb(t: Target, other: RequestId, now: Time, step: nat)
      requires t.Valid()
      modifies t
      ensures t.Valid() && forall r :: r != other ==> (r in t.held <==> r in old(t.held))
      ensures forall r :: r != other ==> t.sentBy[r] == old(t.sentBy[r])
    {
      ghost var sends := *;
      if sends >= 0 {
        t.sentBy := t.sentBy[other := sends];
      }
      if step == 0 {
        var _ := t.Available(now);
      } else if step == 1 {
        var _ := t.RecordFailure(now);
      } else if step == 2 {
        var _ := t.RecordSuccess();
      } else if other in t.held {
        t.ReleaseSlot(other);
      } else {
        var _ := t.TryAcquire(other);
      }
    }

    // Shared state is asked only if the local breaker agrees; None is an error
    // from the store.
    method TargetAvailable(targets: seq<Target>, t: Target, me: RequestId, now: Time) returns (available: Option<bool>)
      requires AllValid(targets) && HoldsOnly(targets, me, None) && t in targets
      modifies targets
      ensures NothingSent(targets, me)
      ensures AllValid(targets) && HoldsOnly(targets, me, None)
      ensures !Asked(old(t.State()), t.failureThreshold, t.cooldown, now).1 ==> available == Some(false)
      ensures !shared ==> available == Some(Asked(old(t.State()), t.failureThreshold, t.cooldown, now).1) && t.held == old(t.held)
    {
      var local := t.Available(now);
      if !local {
        return Some(false);
      }
      if !shared {
        return Some(true);
      }
      Interfere(targets, me);
      available := *;
    }

    method TryAcquire(targets: seq<Target>, t: Target, me: RequestId) returns (acquired: Option<bool>, lease: Option<string>)
      requires AllValid(targets) && HoldsOnly(targets, me, None) && t in targets
      modifies targets
      ensures NothingSent(targets, me)
      ensures AllValid(targets)
      ensures HoldsOnly(targets, me, if acquired == Some(true) then Some(t) else None)
      ensures lease.Some? <==> shared && acquired == Some(true)
      ensures |old(t.held)| == t.maxConcurrency ==> acquired == Some(false)
      ensures !shared ==> acquired == Some(|old(t.held)| < t.maxConcurrency)
    {
      var slot := t.TryAcquire(me);
      if !slot {
        return Some(false), None;
      }
      if !shared {
        return Some(true), None;
      }
      Interfere(targets, me);
      var answer := AskForLease();
      if answer.None? {
        t.ReleaseSlot(me);
        return None, None;
      }
      lease := answer.value;
      if lease.None? {
        t.ReleaseSlot(me);
        return Some(false), None;
      }
      acquired := Some(true);
    }

    // `given` lists the leases the shared store is asked to take back.
    method Release(targets: seq<Target>, t: Target, me: RequestId, lease: Option<string>) returns (ghost given: seq<string>)
      requires AllValid(targets) && HoldsOnly(targets, me, Some(t)) && t in targets
      modifies targets
      ensures NothingSent(targets, me)
      ensures AllValid(targets) && HoldsOnly(targets, me, None)
      ensures given == Listed(lease)
    {
      t.ReleaseSlot(me);
      given := [];
      if lease.Some? {
        Interfere(targets, me);
        given := [lease.value];
      }
    }

    // The breaker takes a failure at time `at`, after which it is `after`; then
    // others act again.
    method Fail(targets: seq<Target>, t: Target, me: RequestId, ghost holding: Option<Target>)
      returns (ghost mark: bool, ghost at: Time, ghost after: Breaker)
      requires AllValid(targets) && HoldsOnly(targets, me, holding) && t in targets
      modifies targets
      ensures NothingSent(targets, me)
      ensures AllValid(targets) && HoldsOnly(targets, me, holding)
      ensures !mark && after == Failed(old(t.State()), t.failureThreshold, at)
    {
      var now: Time := *;
      mark := t.RecordFailure(now);
      at, after := now, t.State();
      Interfere(targets, me);
    }

    // A success closes the breaker; then others act again.
    method Succeed(targets: seq<Target>, t: Target, me: RequestId, ghost holding: Option<Target>)
      returns (ghost mark: bool, ghost after: Breaker)
      requires AllValid(targets) && HoldsOnly(targets, me, holding) && t in targets
      modifies targets
      ensures NothingSent(targets, me)
      ensures AllValid(targets) && HoldsOnly(targets, me, holding)
      ensures mark && after == Succeeded()
    {
      mark := t.RecordSuccess();
      after := t.State();
      Interfere(targets, me);
    }

    // A lease, no lease, or an error from the store.
    method AskForLease() returns (answer: Option<Option<string>>)
    {
      answer := *;
    }

    // Whatever the upstream does. Only a failed event stream has its body read
    // while the request still waits here.
    method Send(targets: seq<Target>, t: Target, me: RequestId, wantsStream: bool) returns (outcome: Upstream)
      requires AllValid(targets) && HoldsOnly(targets, me, Some(t)) && t in targets
      modifies targets
      ensures AllValid(targets) && HoldsOnly(targets, me, Some(t)) && SentTo(targets, me, t)
      ensures outcome.Unread? ==> wantsStream && outcome.status >= 500
    {
      t.sentBy := t.sentBy + multiset{me};
      Interfere(targets, me);
      outcome := *;
      if outcome.Unread? && (!wantsStream || outcome.status < 500) {
        outcome := TransportError;
      }
    }

    // One target. Unless an event stream was opened, its slot and its lease
    // are given back once each before the next target is looked at.
    method Attempt(targets: seq<Target>, t: Target, me: RequestId, wantsStream: bool, now: Time)
      returns (visit: Visit, lease: Option<string>, ghost taken: seq<string>, ghost given: seq<string>, ghost marks: seq<bool>)
      requires AllValid(targets) && HoldsOnly(targets, me, None) && t in targets
      modifies targets
      ensures if visit.Sent? then SentTo(targets, me, t) else NothingSent(targets, me)
      ensures AllValid(targets)
      ensures HoldsOnly(targets, me, if Streams(visit, wantsStream) then Some(t) else None)
      ensures Streams(visit, wantsStream) ==> taken == Listed(lease) && given == [] && marks == []
      ensures !Streams(visit, wantsStream) ==> given == taken && marks == Verdict(visit)
      ensures visit.Sent? && !(wantsStream && AnswersWell(visit)) ==>
                marks == if visit.outcome.Unread? then [] else [visit.outcome.Answered? && visit.outcome.status < 500]
      ensures |taken| <= 1 && (visit.Sent? && shared <==> |taken| == 1)
      ensures !Asked(old(t.State()), t.failureThreshold, t.cooldown, now).1 ==> visit == Unavailable
      ensures !shared && Asked(old(t.State()), t.failureThreshold, t.cooldown, now).1 ==>
                if |old(t.held)| < t.maxConcurrency then visit.Sent? else visit == Saturated
    {
      lease, taken, given, marks := None, [], [], [];
      var available := TargetAvailable(targets, t, me, now);
      if available.None? {
        return StoreFailed, lease, taken, given, marks;
      }
      if !available.value {
        return Unavailable, lease, taken, given, marks;
      }
      var acquired: Option<bool>;
      acquired, lease := TryAcquire(targets, t, me);
      if acquired.None? {
        return StoreFailed, lease, taken, given, marks;
      }
      if !acquired.value {
        return Saturated, lease, taken, given, marks;
      }
      taken := Listed(lease);
      var outcome := Send(targets, t, me, wantsStream);
      visit := Sent(outcome);
      given, marks := Settle(targets, t, me, lease, wantsStream, outcome);
    }

    // After the upstream's answer: the verdict is recorded and slot and lease
    // are given back, unless an event stream was opened.
    method Settle(targets: seq<Target>, t: Target, me: RequestId, lease: Option<string>, wantsStream: bool, outcome: Upstream)
      returns (ghost given: seq<string>, ghost marks: seq<bool>)
      requires AllValid(targets) && HoldsOnly(targets, me, Some(t)) && t in targets
      requires outcome.Unread? ==> wantsStream && outcome.status >= 500
      modifies targets
      ensures NothingSent(targets, me) && AllValid(targets)
      ensures HoldsOnly(targets, me, if Streams(Sent(outcome), wantsStream) then Some(t) else None)
      ensures if Streams(Sent(outcome), wantsStream) then given == [] && marks == []
              else given == Listed(lease) && marks == Verdict(Sent(outcome))
    {
      given, marks := [], [];
      if wantsStream {
        if outcome.TransportError? {
          ghost var mark, at, after := Fail(targets, t, me, Some(t));
          marks := [mark];
          given := Release(targets, t, me, lease);
        } else if outcome.status >= 500 {
          given := Release(targets, t, me, lease);
          if outcome.Answered? {
            ghost var mark, at, after := Fail(targets, t, me, None);
            marks := [mark];
          }
        }
      } else {
        given := Release(targets, t, me, lease);
        if outcome.TransportError? || outcome.status >= 500 {
          ghost var mark, at, after := Fail(targets, t, me, None);
          marks := [mark];
        } else {
          ghost var mark, after := Succeed(targets, t, me, None);
          marks := [mark];
        }
      }
    }

    // The same, counted.
    method AttemptNext(targets: seq<Target>, attempts: seq<Target>, i: nat, me: RequestId, wantsStream: bool, now: Time,
                       ghost base: map<Target, nat>, ghost log: seq<Visit>)
      returns (visit: Visit, lease: Option<string>, ghost taken: seq<string>, ghost given: seq<string>, ghost marks: seq<bool>)
      requires AllValid(targets) && HoldsOnly(targets, me, None)
      requires |log| == i < |attempts| && attempts[i] in targets && Tallied(targets, me, base, log, attempts)
      modifies targets
      ensures AllValid(targets) && Tallied(targets, me, base, log + [visit], attempts)
      ensures HoldsOnly(targets, me, if Streams(visit, wantsStream) then Some(attempts[i]) else None)
      ensures Streams(visit, wantsStream) ==> taken == Listed(lease) && given == [] && marks == []
      ensures !Streams(visit, wantsStream) ==> given == taken && marks == Verdict(visit)
    {
      hide AllValid, HoldsOnly, Streams, Verdict, Listed;
      visit, lease, taken, given, marks := Attempt(targets, attempts[i], me, wantsStream, now);
      LogGrows(log, visit, attempts);
    }

    // The loop over the targets. `log` tells what happened at each in turn;
    // only an event stream still holds the slot of the last target visited.
    method Walk(targets: seq<Target>, attempts: seq<Target>, me: RequestId, wantsStream: bool)
      returns (response: Response, lease: Option<string>, ghost log: seq<Visit>,
               ghost taken: seq<string>, ghost given: seq<string>, ghost marks: seq<bool>)
      requires AllValid(targets) && HoldsOnly(targets, me, None)
      requires forall t :: t in attempts ==> t in targets
      modifies targets
      ensures |log| <= |attempts| && Tallied(targets, me, old(Counts(targets, me)), log, attempts)
      ensures AllValid(targets) && Answers(log, |attempts|, wantsStream, response)
      ensures response.Stream? ==> log != [] && HoldsOnly(targets, me, Some(attempts[|log| - 1]))
      ensures response.Stream? ==> taken == given + Listed(lease) && marks + [true] == Verdicts(log)
      ensures !response.Stream? ==> HoldsOnly(targets, me, None) && taken == given && marks == Verdicts(log)
    {
      lease, log, taken, given, marks := None, [], [], [], [];
      response := Reply(503, "no upstream accepted the call");
      ghost var base := Counts(targets, me);
      assert Tallied(targets, me, base, log, attempts) && Undecided(log, response, marks);
      hide *;
      for i := 0 to |attempts|
        invariant AllValid(targets) && HoldsOnly(targets, me, None)
        invariant |log| == i && Undecided(log, response, marks) && taken == given
        invariant Tallied(targets, me, base, log, attempts)
      {
        var at: Time := *;
        var visit: Visit;
        ghost var took: seq<string>, gave: seq<string>, marked: seq<bool>;
        visit, lease, took, gave, marked := AttemptNext(targets, attempts, i, me, wantsStream, at, base, log);
        VisitLogged(log, visit, |attempts|, wantsStream, response, marks);
        log := log + [visit];
        if Streams(visit, wantsStream) {
          taken := taken + took;
        } else {
          taken, given, marks := taken + took, given + gave, marks + marked;
        }
        if Decides(visit) {
          response := Decision(visit, wantsStream);
          return;
        }
        response := Updated(response, visit);
      }
      Exhausted(log, response, marks, wantsStream);
    }

    // A request that may not be repeated goes to the first target only.
    method Forward(agent: string, targets: seq<Target>, me: RequestId, httpMethod: string, headers: set<string>,
                   wantsStream: bool, bodyLength: nat, now: Time)
      returns (response: Response, lease: Option<string>, ghost log: seq<Visit>, ghost selected: seq<Target>,
               ghost taken: seq<string>, ghost given: seq<string>, ghost marks: seq<bool>)
      requires AllValid(targets) && HoldsOnly(targets, me, None)
      modifies this`roundRobin, targets
      ensures AllValid(targets)
      ensures var available := old(AvailableNow(targets, now));
              if available == [] then response == Reply(503, "no healthy target for '" + agent + "'") && log == []
              else
                && (var start := if agent in old(roundRobin) then old(roundRobin)[agent] % |available| else 0;
                    selected == available[start..] + available[..start])
                && if bodyLength > 10485760 then response == Reply(413, "request body too large") && log == []
                   else Answers(log, if httpMethod in {"GET", "HEAD"} || "idempotency-key" in headers then |available| else 1, wantsStream, response)
      ensures |log| <= |selected|
      ensures forall t :: t in targets ==> t.sentBy[me] == old(t.sentBy[me]) + Sends(log, selected, t)
      ensures response.Stream? ==> log != [] && HoldsOnly(targets, me, Some(selected[|log| - 1]))
      ensures response.Stream? ==> taken == given + Listed(lease) && marks + [true] == Verdicts(log)
      ensures !response.Stream? ==> HoldsOnly(targets, me, None) && taken == given && marks == Verdicts(log)
    {
      lease, log, taken, given, marks := None, [], [], [], [];
      var inTurn := SelectTargets(agent, targets, now);
      selected := inTurn;
      if inTurn == [] {
        response := Reply(503, "no healthy target for '" + agent + "'");
        return;
      }
      Interfere(targets, me);
      if bodyLength > MaxBodyBytes {
        response := Reply(413, "request body too large");
        return;
      }
      var attempts := if Repeatable(httpMethod, headers) then inTurn else inTurn[..1];
      hide AvailableNow, Answers;
      response, lease, log, taken, given, marks := Walk(targets, attempts, me, wantsStream);
      SendsOfPrefix(log, attempts, selected);
    }

    // The body of an event stream that ends or breaks.
    method StreamBody(targets: seq<Target>, t: Target, me: RequestId, lease: Option<string>, completes: bool)
      returns (ghost given: seq<string>, ghost mark: bool)
      requires AllValid(targets) && HoldsOnly(targets, me, Some(t)) && t in targets
      modifies targets
      ensures NothingSent(targets, me)
      ensures AllValid(targets) && HoldsOnly(targets, me, None)
      ensures given == Listed(lease) && mark == completes
    {
      Interfere(targets, me);
      if completes {
        ghost var after;
        mark, after := Succeed(targets, t, me, Some(t));
      } else {
        ghost var at, after;
        mark, at, after := Fail(targets, t, me, Some(t));
      }
      given := Release(targets, t, me, lease);
    }

    method SelectTargets(agent: string, targets: seq<Target>, now: Time) returns (selected: seq<Target>)
      requires AllValid(targets)
      modifies this`roundRobin, targets
      ensures AllValid(targets)
      ensures forall t :: t in targets ==> t.held == old(t.held)
      ensures forall t :: t in selected ==> t in targets
      ensures forall t :: t in targets ==> t.sentBy == old(t.sentBy)
      ensures var available := old(AvailableNow(targets, now));
              if available == [] then selected == [] && roundRobin == old(roundRobin)
              else
                var start := if agent in old(roundRobin) then old(roundRobin)[agent] % |available| else 0;
                selected == available[start..] + available[..start] && roundRobin == old(roundRobin)[agent := start + 1]
    {
      hide AvailableNow, AllValid;
      var available := AskAll(targets, now);
      selected := Rotate(agent, available);
    }

    // The next target is first, the counter moves past it.
    method Rotate(agent: string, available: seq<Target>) returns (selected: seq<Target>)
      modifies this`roundRobin
      ensures if available == [] then selected == [] && roundRobin == old(roundRobin)
              else
                var start := if agent in old(roundRobin) then old(roundRobin)[agent] % |available| else 0;
                selected == available[start..] + available[..start] && roundRobin == old(roundRobin)[agent := start + 1]
      ensures forall t :: t in selected ==> t in available
    {
      if available == [] {
        return [];
      }
      var start := Counter(agent) % |available|;
      roundRobin := roundRobin[agent := start + 1];
      selected := Rotated(available, start);
    }

    // The targets whose breaker lets requests through, in order.
    method AskAll(targets: seq<Target>, now: Time) returns (available: seq<Target>)
      requires AllValid(targets)
      modifies targets
      ensures AllValid(targets) && available == old(AvailableNow(targets, now))
      ensures forall t :: t in available ==> t in targets
      ensures forall t :: t in targets ==> t.held == old(t.held) && t.sentBy == old(t.sentBy)
    {
      available := [];
      for i := 0 to |targets|
        invariant available == old(AvailableNow(targets[..i], now))
        invariant AllValid(targets)
        invariant forall t :: t in available ==> t in targets
        invariant forall t :: t in targets ==> t.sentBy == old(t.sentBy)
        invariant forall t :: t in targets ==> t.held == old(t.held)
        invariant forall t :: t in targets ==>
          t.State() == old(t.State()) || t.State() == old(Asked(t.State(), t.failureThreshold, t.cooldown, now).0)
      {
        var healthy := targets[i].Available(now);
        if healthy {
          available := available + [targets[i]];
        }
        assert targets[..i + 1][..i] == targets[..i];
      }
      assert targets[..|targets|] == targets;
    }

    function Counter(agent: string): nat
      reads this`roundRobin
    {
      if agent in roundRobin then roundRobin[agent] else 0
    }
  }

  function AvailableNow(targets: seq<Target>, now: Time): seq<Target>
    reads targets
  {
    if targets == [] then []
    else
      var n := |targets| - 1;
      var t := targets[n];
      AvailableNow(targets[..n], now) +
      (if Asked(t.State(), t.failureThreshold, t.cooldown, now).1 then [t] else [])
  }

  function Listed(lease: Option<string>): seq<string> {
    if lease.Some? then [lease.value] else []
  }

  // The visit ended in an event stream that is still to be read.
  predicate Streams(v: Visit, wantsStream: bool) {
    wantsStream && v.Sent? && v.outcome.Answered? && v.outcome.status < 500
  }
}