// Who may run the operation behind an idempotency key: the process-local
// registry, and the two shared stores whose reservations expire.
module Idempotency {
  import opened Wrappers

  datatype OperationResult = OperationResult(operationId: string, status: string, output: string)

  datatype Operation = Operation(id: string, key: string, tenant: Option<string>)

  // Unscoped keys are stored as they are, tenant keys behind a separator.
  function StorageKey(key: string, tenant: Option<string>): string {
    if tenant.None? then key else tenant.value + ['\U{001f}'] + key
  }

  function KeyOf(operation: Operation): string {
    StorageKey(operation.key, operation.tenant)
  }

  // ---------------------------------------------------------------------
  // The process-local registry
  // ---------------------------------------------------------------------

  datatype Registry = Registry(completed: map<string, OperationResult>, inProgress: map<string, string>)

  const EmptyRegistry := Registry(map[], map[])

  predicate Free(r: Registry, key: string) {
    key !in r.completed && key !in r.inProgress
  }

  // An operation without a key is always granted and leaves no trace.
  function Claim(r: Registry, op: Operation): (Registry, bool) {
    if op.key == "" then (r, true)
    else if Free(r, KeyOf(op)) then (r.(inProgress := r.inProgress[KeyOf(op) := op.id]), true)
    else (r, false)
  }

  function Record(r: Registry, op: Operation, result: OperationResult): Registry {
    if op.key == "" then r.(completed := r.completed[op.id := result])
    else Registry(r.completed[KeyOf(op) := result], r.inProgress - {KeyOf(op)})
  }

  class OperationRegistry {
    var completed: map<string, OperationResult>
    var inProgress: map<string, string>

    function State(): Registry
      reads this
    {
      Registry(completed, inProgress)
    }

    constructor ()
      ensures State() == EmptyRegistry
    {
      completed, inProgress := map[], map[];
    }

    method ClaimOperation(operation: Operation) returns (granted: bool, prior: Option<OperationResult>)
      modifies this
      ensures (State(), granted) == Claim(old(State()), operation)
      ensures granted <==> operation.key == "" || KeyOf(operation) !in old(completed).Keys + old(inProgress).Keys
      ensures completed == old(completed)
      ensures inProgress == if granted && operation.key != "" then old(inProgress)[KeyOf(operation) := operation.id] else old(inProgress)
      ensures granted ==> prior.None?
      ensures !granted ==>
                prior == Some(if KeyOf(operation) in completed then completed[KeyOf(operation)]
                              else OperationResult(inProgress[KeyOf(operation)], "in_progress", ""))
    {
      if operation.key == "" {
        return true, None;
      }
      var key := KeyOf(operation);
      if key in completed {
        return false, Some(completed[key]);
      }
      if key in inProgress {
        return false, Some(OperationResult(inProgress[key], "in_progress", ""));
      }
      inProgress := inProgress[key := operation.id];
      return true, None;
    }

    method RecordResult(operation: Operation, result: OperationResult)
      modifies this
      ensures State() == Record(old(State()), operation, result)
      ensures completed == old(completed)[if operation.key != "" then KeyOf(operation) else operation.id := result]
      ensures inProgress == if operation.key != "" then old(inProgress) - {KeyOf(operation)} else old(inProgress)
    {
      var key := if operation.key != "" then KeyOf(operation) else operation.id;
      completed := completed[key := result];
      if operation.key != "" {
        inProgress := inProgress - {key};
      }
    }

    method Find(key: string, tenant: Option<string>) returns (prior: Option<OperationResult>)
      ensures prior.Some? <==> StorageKey(key, tenant) in completed
      ensures prior.Some? ==> prior.value == completed[StorageKey(key, tenant)]
    {
      var storageKey := StorageKey(key, tenant);
      prior := if storageKey in completed then Some(completed[storageKey]) else None;
    }
  }

  datatype Call = ClaimCall(op: Operation) | RecordCall(op: Operation, result: OperationResult)

  function AfterCall(r: Registry, call: Call): Registry {
    match call
    case ClaimCall(op) => Claim(r, op).0
    case RecordCall(op, result) => Record(r, op, result)
  }

  function AfterCalls(calls: seq<Call>): Registry {
    if calls == [] then EmptyRegistry
    else
      var r := AfterCalls(calls[..|calls| - 1]);
      AfterCall(r, calls[|calls| - 1])
  }

  predicate GrantsKey(r: Registry, call: Call, key: string) {
    call.ClaimCall? && call.op.key != "" && KeyOf(call.op) == key && Claim(r, call.op).1
  }

  function KeyGrants(calls: seq<Call>, key: string): nat {
    if calls == [] then 0
    else
      var before := calls[..|calls| - 1];
      KeyGrants(before, key) + (if GrantsKey(AfterCalls(before), calls[|calls| - 1], key) then 1 else 0)
  }

  // In any sequence of calls by any number of workers each key is granted at
  // most once ever; once granted it stays taken.
  lemma {:induction false} LocalGrantsOnce(calls: seq<Call>, key: string)
    ensures KeyGrants(calls, key) <= 1
    ensures KeyGrants(calls, key) == 1 ==> !Free(AfterCalls(calls), key)
  {
    if calls != [] {
      LocalGrantsOnce(calls[..|calls| - 1], key);
    }
  }

  // The call recorded a result under this storage key.
  predicate RecordsKey(call: Call, key: string) {
    call.RecordCall? && (if call.op.key != "" then KeyOf(call.op) == key else call.op.id == key)
  }

  predicate AsksKey(call: Call, key: string) {
    call.ClaimCall? && call.op.key != "" && KeyOf(call.op) == key
  }

  // Call i is the last that recorded a result under the key.
  predicate LastRecord(calls: seq<Call>, i: nat, key: string) {
    && i < |calls| && RecordsKey(calls[i], key)
    && forall k :: i < k < |calls| ==> !RecordsKey(calls[k], key)
  }

  // Call i is the first that asked for the key, and nothing was recorded since.
  predicate FirstAsk(calls: seq<Call>, i: nat, key: string) {
    && i < |calls| && AsksKey(calls[i], key)
    && (forall k :: 0 <= k < i ==> !AsksKey(calls[k], key))
    && (forall k :: 0 <= k < |calls| ==> !RecordsKey(calls[k], key))
  }

  // After any calls a key is completed exactly if a result was recorded under
  // it, with the result recorded last.
  lemma {:induction false} CompletedIsLatest(calls: seq<Call>, i: nat, key: string)
    requires LastRecord(calls, i, key)
    ensures key in AfterCalls(calls).completed && AfterCalls(calls).completed[key] == calls[i].result
    decreases |calls|
  {
    var n := |calls| - 1;
    var before := calls[..n];
    CallCompletes(AfterCalls(before), calls[n], key);
    if i < n {
      hide RecordsKey, AfterCall;
      assert LastRecord(before, i, key);
      CompletedIsLatest(before, i, key);
    }
  }

  lemma {:induction false} UnrecordedIsOpen(calls: seq<Call>, key: string)
    requires forall i :: 0 <= i < |calls| ==> !RecordsKey(calls[i], key)
    ensures key !in AfterCalls(calls).completed
  {
    if calls != [] {
      var n := |calls| - 1;
      CallCompletes(AfterCalls(calls[..n]), calls[n], key);
      hide RecordsKey, AfterCall;
      UnrecordedIsOpen(calls[..n], key);
    }
  }

  lemma CallCompletes(r: Registry, call: Call, key: string)
    ensures var r' := AfterCall(r, call);
            if RecordsKey(call, key) then key in r'.completed && r'.completed[key] == call.result
            else (key in r'.completed <==> key in r.completed) && (key in r.completed ==> r'.completed[key] == r.completed[key])
  {
  }

  // While nothing was recorded under it, a key is in progress exactly if it was
  // asked for, for the operation that asked first.
  lemma {:induction false} InProgressIsFirst(calls: seq<Call>, i: nat, key: string)
    requires FirstAsk(calls, i, key)
    ensures key in AfterCalls(calls).inProgress && AfterCalls(calls).inProgress[key] == calls[i].op.id
    decreases |calls|
  {
    var n := |calls| - 1;
    var before := calls[..n];
    assert forall k :: 0 <= k < n ==> calls[k] == before[k];
    UnrecordedIsOpen(before, key);
    CallReserves(AfterCalls(before), calls[n], key);
    hide RecordsKey, AsksKey, AfterCall;
    if i < n {
      InProgressIsFirst(before, i, key);
    } else {
      UnaskedIsFree(before, key);
    }
  }

  lemma {:induction false} UnaskedIsFree(calls: seq<Call>, key: string)
    requires forall i :: 0 <= i < |calls| ==> !RecordsKey(calls[i], key) && !AsksKey(calls[i], key)
    ensures Free(AfterCalls(calls), key)
  {
    if calls != [] {
      var n := |calls| - 1;
      UnaskedIsFree(calls[..n], key);
      CallReserves(AfterCalls(calls[..n]), calls[n], key);
      CallCompletes(AfterCalls(calls[..n]), calls[n], key);
      hide RecordsKey, AsksKey, AfterCall;
    }
  }

  lemma CallReserves(r: Registry, call: Call, key: string)
    requires key !in r.completed && !RecordsKey(call, key)
    ensures var r' := AfterCall(r, call);
            if AsksKey(call, key) && key !in r.inProgress then key in r'.inProgress && r'.inProgress[key] == call.op.id
            else (key in r'.inProgress <==> key in r.inProgress) && (key in r.inProgress ==> r'.inProgress[key] == r.inProgress[key])
  {
  }

  // Keys and tenants without the separator never share a storage key unless
  // they are the same.
  lemma StorageKeysDiffer(key1: string, tenant1: Option<string>, key2: string, tenant2: Option<string>)
    requires '\U{001f}' !in key1 && '\U{001f}' !in key2
    requires tenant1.Some? ==> '\U{001f}' !in tenant1.value
    requires tenant2.Some? ==> '\U{001f}' !in tenant2.value
    ensures StorageKey(key1, tenant1) == StorageKey(key2, tenant2) <==> key1 == key2 && tenant1 == tenant2
  {
    if tenant1.Some? {
      OneSeparator(tenant1.value, key1);
    }
    if tenant2.Some? {
      OneSeparator(tenant2.value, key2);
    }
  }

  lemma OneSeparator(tenant: string, key: string)
    requires '\U{001f}' !in key && '\U{001f}' !in tenant
    ensures var s := StorageKey(key, Some(tenant));
            && (forall i :: 0 <= i < |s| ==> (s[i] == '\U{001f}' <==> i == |tenant|))
            && |tenant| < |s| && s[..|tenant|] == tenant && s[|tenant| + 1..] == key
            && '\U{001f}' in s
  {
    var s := StorageKey(key, Some(tenant));
    assert s[|tenant|] == '\U{001f}';
  }

  // With the separator they can: a key of one tenant is another's.
  lemma StorageKeysCollide()
    ensures StorageKey("b", Some("a")) == StorageKey("a\U{001f}b", None)
  {
    assert "a" + ['\U{001f}'] + "b" == "a\U{001f}b";
  }

  // ---------------------------------------------------------------------
  // Shared stores: one key, any number of workers, entries that expire
  // ---------------------------------------------------------------------

  type Time = real

  // An entry belongs to the operation that reserved or last wrote it.
  datatype Entry = Entry(owner: string, status: string, expiresAt: Time)

  datatype Event =
    | Granted(owner: string, at: Time, expiresAt: Time)
    | Published(owner: string, status: string, at: Time, expiresAt: Time)

  function EntryOf(e: Event): Entry {
    match e
    case Granted(owner, _, expiresAt) => Entry(owner, "in_progress", expiresAt)
    case Published(owner, status, _, expiresAt) => Entry(owner, status, expiresAt)
  }

  function EntryAfter(events: seq<Event>): Option<Entry> {
    if events == [] then None else Some(EntryOf(events[|events| - 1]))
  }

  predicate Expired(entry: Option<Entry>, now: Time) {
    entry.None? || entry.value.expiresAt <= now
  }

  // Time does not run backwards, and a reservation is granted only over an
  // entry that has expired.
  ghost predicate WellGranted(events: seq<Event>) {
    && (forall i, j :: 0 <= i < j < |events| ==> events[i].at <= events[j].at)
    && forall j :: 0 <= j < |events| && events[j].Granted? ==> Expired(EntryAfter(events[..j]), events[j].at)
  }

  // The last write before the next grant after grant i.
  function LastOf(events: seq<Event>, i: nat): (last: nat)
    requires i < |events|
    ensures i <= last < |events|
    ensures forall k :: i < k <= last ==> !events[k].Granted?
    ensures last + 1 < |events| ==> events[last + 1].Granted?
    decreases |events| - i
  {
    if i + 1 < |events| && !events[i + 1].Granted? then LastOf(events, i + 1) else i
  }

  // Grant i is in force at this instant: from the grant until the entry last
  // written before the next one runs out.
  ghost predicate Holds(events: seq<Event>, i: nat, at: Time) {
    && i < |events| && events[i].Granted?
    && events[i].at <= at < events[LastOf(events, i)].expiresAt
  }

  ghost predicate InForce(events: seq<Event>, at: Time) {
    exists i: nat :: Holds(events, i, at)
  }

  lemma HoldsUntilNext(events: seq<Event>, i: nat, j: nat)
    requires WellGranted(events) && i < j < |events| && events[i].Granted? && events[j].Granted?
    ensures events[LastOf(events, i)].expiresAt <= events[j].at
  {
    var last := LastOf(events, i);
    RunOutByThen(events, last + 1);
    InOrder(events, last + 1, j);
    hide WellGranted;
  }

  // At a grant the entry written before has run out.
  lemma RunOutByThen(events: seq<Event>, j: nat)
    requires WellGranted(events) && 0 < j < |events| && events[j].Granted?
    ensures events[j - 1].expiresAt <= events[j].at
  {
    assert events[..j][j - 1] == events[j - 1];
  }

  lemma InOrder(events: seq<Event>, i: nat, j: nat)
    requires WellGranted(events) && i <= j < |events|
    ensures events[i].at <= events[j].at
  {
  }

  // However many claims interleave, at every instant at most one grant is in
  // force: no second one lies within what an earlier one led to.
  lemma AtMostOneHolder(events: seq<Event>, i: nat, j: nat, at: Time)
    requires WellGranted(events) && Holds(events, i, at) && Holds(events, j, at)
    ensures i == j
  {
    if i < j {
      HoldsUntilNext(events, i, j);
    } else if j < i {
      HoldsUntilNext(events, j, i);
    }
  }

  lemma {:induction false} LatestGrant(events: seq<Event>, n: nat) returns (g: nat)
    requires n < |events| && events[0].Granted?
    ensures g <= n && events[g].Granted? && forall k :: g < k <= n ==> !events[k].Granted?
  {
    if events[n].Granted? {
      g := n;
    } else {
      g := LatestGrant(events, n - 1);
    }
  }

  // The key's entry is unexpired exactly while some grant is in force.
  lemma HeldExactly(events: seq<Event>, now: Time)
    requires WellGranted(events)
    requires events != [] ==> events[0].Granted? && events[|events| - 1].at <= now
    ensures !Expired(EntryAfter(events), now) <==> InForce(events, now)
  {
    if events != [] {
      var last := |events| - 1;
      var g := LatestGrant(events, last);
      assert LastOf(events, g) == last;
      if !Expired(EntryAfter(events), now) {
        assert Holds(events, g, now);
      }
      if InForce(events, now) {
        var i: nat :| Holds(events, i, now);
        if i < g {
          HoldsUntilNext(events, i, g);
        }
      }
    }
  }

  function GrantCount(events: seq<Event>): nat {
    if events == [] then 0
    else GrantCount(events[..|events| - 1]) + (if events[|events| - 1].Granted? then 1 else 0)
  }

  // Every write keeps the entry for this long at least.
  ghost predicate KeptFor(events: seq<Event>, lifetime: Time) {
    forall k :: 0 <= k < |events| ==> events[k].expiresAt >= events[k].at + lifetime
  }

  // The length of n reservation lifetimes.
  function Lifetimes(n: nat, ttl: Time): Time {
    if n == 0 then 0.0 else Lifetimes(n - 1, ttl) + ttl
  }

  lemma {:induction false} LifetimesGrow(m: nat, n: nat, ttl: Time)
    requires m <= n && ttl > 0.0
    ensures Lifetimes(m, ttl) <= Lifetimes(n, ttl)
  {
    if m < n {
      LifetimesGrow(m, n - 1, ttl);
    }
  }

  lemma WellGrantedPrefix(events: seq<Event>, n: nat)
    requires WellGranted(events) && n <= |events|
    ensures WellGranted(events[..n])
  {
    var before := events[..n];
    forall j | 0 <= j < n && before[j].Granted?
      ensures Expired(EntryAfter(before[..j]), before[j].at)
    {
      assert before[..j] == events[..j];
    }
  }

  // At most one grant per reservation lifetime: n grants take at least n - 1
  // lifetimes.
  lemma {:induction false} GrantsAreSpread(events: seq<Event>, ttl: Time)
    requires ttl > 0.0 && WellGranted(events) && KeptFor(events, ttl) && events != []
    ensures GrantCount(events) > 0 ==>
              Lifetimes(GrantCount(events) - 1, ttl) <= events[|events| - 1].at - events[0].at
  {
    var n := |events| - 1;
    var before := events[..n];
    if n > 0 {
      WellGrantedPrefix(events, n);
      GrantsAreSpread(before, ttl);
      assert before[n - 1] == events[n - 1] && before[0] == events[0];
      assert events[n].Granted? ==> events[n - 1].at + ttl <= events[n].at;
    } else {
      assert before == [];
    }
  }

  // The history takes at least n reservation lifetimes.
  predicate Spans(events: seq<Event>, n: nat, lifetime: Time) {
    events != [] && Lifetimes(n, lifetime) <= events[|events| - 1].at - events[0].at
  }

  lemma SomeAreSpread(events: seq<Event>, n: nat, lifetime: Time)
    requires lifetime > 0.0 && WellGranted(events) && KeptFor(events, lifetime) && n <= GrantCount(events)
    ensures n > 0 ==> Spans(events, n - 1, lifetime)
  {
    assert events == [] ==> GrantCount(events) == 0;
    hide WellGranted, KeptFor;
    if n > 0 {
      GrantsAreSpread(events, lifetime);
      hide Lifetimes, GrantCount;
      LifetimesGrow(n - 1, GrantCount(events) - 1, lifetime);
    }
  }

  lemma WellGrantedAppend(events: seq<Event>, e: Event)
    requires WellGranted(events)
    requires events != [] ==> events[|events| - 1].at <= e.at
    requires e.Granted? ==> Expired(EntryAfter(events), e.at)
    ensures WellGranted(events + [e])
  {
    var longer := events + [e];
    forall j | 0 <= j < |longer| && longer[j].Granted?
      ensures Expired(EntryAfter(longer[..j]), longer[j].at)
    {
      assert longer[..j] == events[..j];
      assert events[..|events|] == events;
    }
  }

  ghost predicate NoneBy(events: seq<Event>, from: nat, owner: string) {
    forall k :: from <= k < |events| ==> events[k].owner != owner
  }

  // Exactly one event from `from` on belongs to the owner.
  ghost predicate OneBy(events: seq<Event>, from: nat, at: nat, owner: string) {
    && from <= at < |events|
    && events[at].owner == owner
    && forall k :: from <= k < |events| && k != at ==> events[k].owner != owner
  }

  lemma NoneByJoined(before: seq<Event>, after: seq<Event>, from: nat, owner: string)
    requires before <= after && NoneBy(before, from, owner) && NoneBy(after, |before|, owner)
    ensures NoneBy(after, from, owner)
  {
  }

  lemma OneByLater(before: seq<Event>, after: seq<Event>, from: nat, at: nat, owner: string)
    requires from <= |before| && before <= after && NoneBy(before, from, owner) && OneBy(after, |before|, at, owner)
    ensures OneBy(after, from, at, owner)
  {
  }

  lemma OneByAppended(events: seq<Event>, from: nat, e: Event)
    requires from <= |events| && NoneBy(events, from, e.owner)
    ensures OneBy(events + [e], from, |events|, e.owner)
  {
  }

  // At this place of the history the key was held by an entry that outlives
  // `now`.
  ghost predicate HeldAt(events: seq<Event>, from: nat, at: nat, now: Time) {
    from <= at <= |events| && !Expired(EntryAfter(events[..at]), now)
  }

  lemma HeldNow(events: seq<Event>, from: nat, entry: Option<Entry>, now: Time, later: Time)
    requires from <= |events| && entry == EntryAfter(events) && !Expired(entry, later) && now <= later
    ensures HeldAt(events, from, |events|, now)
  {
    assert events[..|events|] == events;
  }

  lemma HeldSince(events: seq<Event>, from: nat, since: nat, at: nat, now: Time, later: Time)
    requires from <= since && now <= later && HeldAt(events, since, at, later)
    ensures HeldAt(events, from, at, now)
  {
  }

  lemma HeldBefore(before: seq<Event>, after: seq<Event>, from: nat, at: nat, now: Time)
    requires before <= after && HeldAt(before, from, at, now)
    ensures HeldAt(after, from, at, now)
  {
    assert before[..at] == after[..at];
  }

  // ---------------------------------------------------------------------
  // Redis: SET NX EX to reserve, GET then SET to publish
  // ---------------------------------------------------------------------

  // At some point of the history the key was this owner's.
  ghost predicate SawOwn(events: seq<Event>, owner: string) {
    exists k :: 0 <= k <= |events| && EntryAfter(events[..k]).Some? && EntryAfter(events[..k]).value.owner == owner
  }

  // Whoever published had found the key its own before.
  ghost predicate ReadBeforeWrite(events: seq<Event>) {
    forall j :: 0 <= j < |events| && events[j].Published? ==> SawOwn(events[..j], events[j].owner)
  }

  lemma SawOwnLonger(events: seq<Event>, longer: seq<Event>, owner: string)
    requires events <= longer && SawOwn(events, owner)
    ensures SawOwn(longer, owner)
  {
    var k :| 0 <= k <= |events| && EntryAfter(events[..k]).Some? && EntryAfter(events[..k]).value.owner == owner;
    assert longer[..k] == events[..k];
  }

  lemma ReadBeforeWriteAppend(events: seq<Event>, e: Event)
    requires ReadBeforeWrite(events) && (e.Published? ==> SawOwn(events, e.owner))
    ensures ReadBeforeWrite(events + [e])
  {
    hide SawOwn;
    var longer := events + [e];
    forall j | 0 <= j < |longer| && longer[j].Published?
      ensures SawOwn(longer[..j], longer[j].owner)
    {
      assert longer[..j] == events[..j];
      assert events[..|events|] == events;
    }
  }

  lemma FirstIsGranted(events: seq<Event>)
    requires ReadBeforeWrite(events) && events != []
    ensures events[0].Granted?
  {
    assert events[..0] == [];
    NeverOwn(events[0].owner);
  }

  lemma NeverOwn(owner: string)
    ensures !SawOwn([], owner)
  {
  }

  lemma SawOwnNow(events: seq<Event>, owner: string)
    requires EntryAfter(events).Some? && EntryAfter(events).value.owner == owner
    ensures SawOwn(events, owner)
  {
    assert events[..|events|] == events;
  }

  ghost predicate AllSawOwn(events: seq<Event>, owners: set<string>) {
    forall owner <- owners :: SawOwn(events, owner)
  }

  lemma AllSawOwnLonger(events: seq<Event>, longer: seq<Event>, owners: set<string>)
    requires events <= longer && AllSawOwn(events, owners)
    ensures AllSawOwn(longer, owners)
  {
    forall owner | owner in owners
      ensures SawOwn(longer, owner)
    {
      SawOwnLonger(events, longer, owner);
    }
  }

  lemma AllSawOwnChanged(events: seq<Event>, owners: set<string>, owner: string)
    requires AllSawOwn(events, owners)
    ensures AllSawOwn(events, owners - {owner})
    ensures SawOwn(events, owner) ==> AllSawOwn(events, owners + {owner})
    ensures owner in owners ==> SawOwn(events, owner)
  {
  }

  // What the key, the clock, the workers about to record and the history have
  // to do with each other.
  ghost predicate RedisGood(events: seq<Event>, entry: Option<Entry>, now: Time, ttl: Time, recording: set<string>) {
    && ttl > 0.0
    && WellGranted(events) && KeptFor(events, ttl) && ReadBeforeWrite(events)
    && entry == EntryAfter(events)
    && (events != [] ==> events[|events| - 1].at <= now)
    && AllSawOwn(events, recording)
  }

  lemma RedisWrites(events: seq<Event>, entry: Option<Entry>, now: Time, ttl: Time, recording: set<string>, e: Event)
    requires RedisGood(events, entry, now, ttl, recording)
    requires e.at == now && e.expiresAt == now + ttl
    requires if e.Granted? then Expired(entry, now) else e.owner in recording
    ensures RedisGood(events + [e], Some(EntryOf(e)), now, ttl, recording)
  {
    AllSawOwnChanged(events, recording, e.owner);
    WellGrantedAppend(events, e);
    ReadBeforeWriteAppend(events, e);
    AllSawOwnLonger(events, events + [e], recording);
    hide WellGranted, ReadBeforeWrite, AllSawOwn;
  }

  lemma RedisWaits(events: seq<Event>, entry: Option<Entry>, now: Time, ttl: Time, recording: set<string>, later: Time, owner: string)
    requires RedisGood(events, entry, now, ttl, recording) && now <= later
    ensures RedisGood(events, entry, later, ttl, recording)
    ensures RedisGood(events, entry, now, ttl, recording - {owner})
    ensures entry.Some? && entry.value.owner == owner ==> RedisGood(events, entry, now, ttl, recording + {owner})
  {
    AllSawOwnChanged(events, recording, owner);
    if entry.Some? && entry.value.owner == owner {
      SawOwnNow(events, owner);
    }
    hide WellGranted, KeptFor, ReadBeforeWrite, AllSawOwn;
  }

  lemma RedisHolds(events: seq<Event>, entry: Option<Entry>, now: Time, ttl: Time, recording: set<string>)
    requires RedisGood(events, entry, now, ttl, recording)
    ensures entry == EntryAfter(events) && ttl > 0.0
    ensures !Expired(entry, now) <==> InForce(events, now)
  {
    if events != [] {
      FirstIsGranted(events);
    }
    HeldExactly(events, now);
  }

  class RedisOperationKey {
    var entry: Option<Entry>
    var now: Time
    const ttl: Time
    // The workers between the GET that found the key their own and their SET.
    var recording: set<string>
    ghost var events: seq<Event>

    ghost predicate Valid()
      reads this
    {
      RedisGood(events, entry, now, ttl, recording)
    }

    constructor (ttl: Time, now: Time)
      requires ttl > 0.0
      ensures Valid() && events == [] && recording == {} && this.ttl == ttl && this.now == now
    {
      this.ttl, this.now := ttl, now;
      entry, events, recording := None, [], {};
    }

    // SET key NX EX ttl: granted exactly when no grant is in force.
    method SetIfAbsent(owner: string) returns (granted: bool)
      requires Valid()
      modifies this`entry, this`events
      ensures Valid()
      ensures granted <==> Expired(old(entry), now)
      ensures granted <==> !InForce(old(events), now)
      ensures events == if granted then old(events) + [Granted(owner, now, now + ttl)] else old(events)
      ensures !granted ==> entry == old(entry)
    {
      hide RedisGood, InForce;
      RedisHolds(events, entry, now, ttl, recording);
      if !Expired(entry, now) {
        return false;
      }
      RedisWrites(events, entry, now, ttl, recording, Granted(owner, now, now + ttl));
      entry := Some(Entry(owner, "in_progress", now + ttl));
      events := events + [Granted(owner, now, now + ttl)];
      granted := true;
    }

    // A GET finds an entry exactly while some grant is in force.
    method Get() returns (found: Option<Entry>)
      requires Valid()
      ensures found.Some? <==> InForce(events, now)
      ensures found == if Expired(EntryAfter(events), now) then None else EntryAfter(events)
    {
      hide RedisGood, InForce;
      RedisHolds(events, entry, now, ttl, recording);
      found := if Expired(entry, now) then None else entry;
    }

    // The GET of a record: is the key still this worker's?
    method BeginRecord(owner: string) returns (mine: bool)
      requires Valid()
      modifies this`recording
      ensures Valid() && recording == if mine then old(recording) + {owner} else old(recording)
      ensures mine <==> !Expired(EntryAfter(events), now) && EntryAfter(events).value.owner == owner
    {
      hide RedisGood, InForce;
      RedisHolds(events, entry, now, ttl, recording);
      var current := Get();
      mine := current.Some? && current.value.owner == owner;
      if mine {
        RedisWaits(events, entry, now, ttl, recording, now, owner);
        recording := recording + {owner};
      }
    }

    // SET key EX ttl, which asks no more.
    method FinishRecord(owner: string, status: string)
      requires Valid() && owner in recording
      modifies this`entry, this`events, this`recording
      ensures Valid() && recording == old(recording) - {owner}
      ensures events == old(events) + [Published(owner, status, now, now + ttl)]
    {
      hide RedisGood;
      RedisWrites(events, entry, now, ttl, recording, Published(owner, status, now, now + ttl));
      entry := Some(Entry(owner, status, now + ttl));
      events := events + [Published(owner, status, now, now + ttl)];
      RedisWaits(events, entry, now, ttl, recording, now, owner);
      recording := recording - {owner};
    }

    // Time passes and other workers run their own commands.
    method Interfere(me: string)
      requires Valid()
      modifies this
      ensures Valid() && old(events) <= events && old(now) <= now
      ensures NoneBy(events, |old(events)|, me)
      ensures me in recording <==> me in old(recording)
    {
      var steps: nat := *;
      ghost var first := events;
      while steps > 0
        invariant Valid() && first == old(events) <= events && old(now) <= now
        invariant NoneBy(events, |first|, me)
        invariant me in recording <==> me in old(recording)
      {
        hide Valid, NoneBy;
        ghost var before := events;
        InterfereOnce(me);
        NoneByJoined(before, events, |first|, me);
        steps := steps - 1;
      }
    }

    method InterfereOnce(me: string)
      requires Valid()
      modifies this
      ensures Valid() && old(events) <= events && old(now) <= now
      ensures NoneBy(events, |old(events)|, me)
      ensures me in recording <==> me in old(recording)
    {
      hide RedisGood, InForce;
      var elapsed: Time, owner: string, status: string, command: nat := *, *, *, *;
      if elapsed > 0.0 {
        RedisWaits(events, entry, now, ttl, recording, now + elapsed, owner);
        now := now + elapsed;
      }
      if owner != me {
        if command == 0 {
          var _ := SetIfAbsent(owner);
        } else if command == 1 {
          var _ := BeginRecord(owner);
        } else if owner in recording {
          FinishRecord(owner, status);
        }
      }
    }

    // SET NX after other workers had their turn: a grant of its own, or a look
    // at the entry that holds the key.
    method TryReserve(owner: string) returns (granted: bool, ghost at: nat)
      requires Valid()
      modifies this
      ensures Valid() && old(events) <= events && old(now) <= now
      ensures granted ==> OneBy(events, |old(events)|, at, owner) && events[at].Granted?
      ensures !granted ==> NoneBy(events, |old(events)|, owner) && HeldAt(events, |old(events)|, at, old(now))
    {
      Interfere(owner);
      ghost var before := events;
      at := |events|;
      RedisHolds(events, entry, now, ttl, recording);
      hide *;
      granted := SetIfAbsent(owner);
      if granted {
        OneByAppended(before, |old(events)|, events[at]);
      } else {
        HeldNow(before, |old(events)|, entry, old(now), now);
      }
    }

    // The claim retries once when the key vanished between SET NX and GET.
    method Claim(operation: Operation) returns (granted: bool, prior: Option<Entry>, ghost at: nat)
      requires Valid() && operation.key != ""
      modifies this
      ensures Valid() && old(events) <= events
      ensures granted ==> OneBy(events, |old(events)|, at, operation.id) && events[at].Granted? && prior.None?
      ensures !granted ==>
                && NoneBy(events, |old(events)|, operation.id) && prior.Some?
                && HeldAt(events, |old(events)|, at, old(now))
    {
      granted, prior, at := false, None, 0;
      ghost var first := events;
      assert NoneBy(events, |first|, operation.id);
      hide *;
      for attempt := 0 to 2
        invariant Valid() && first == old(events) <= events && !granted && prior.None? && old(now) <= now
        invariant NoneBy(events, |first|, operation.id)
        invariant attempt > 0 ==> HeldAt(events, |first|, at, old(now))
      {
        ghost var before, since := events, now;
        granted, at := TryReserve(operation.id);
        if granted {
          OneByLater(before, events, |first|, at, operation.id);
          return;
        }
        HeldSince(events, |first|, |before|, at, old(now), since);
        NoneByJoined(before, events, |first|, operation.id);
        before := events;
        Interfere(operation.id);
        NoneByJoined(before, events, |first|, operation.id);
        HeldBefore(before, events, |first|, at, old(now));
        prior := Get();
        if prior.Some? {
          return;
        }
      }
      prior := Some(Entry("", "in_progress", now));
    }

    // GET, compare the owner, SET. `read` is where in the history the GET took
    // place, at the time `readAt`, and `at` where the SET did. The SET hits
    // another worker's entry exactly when one wrote in between.
    method RecordResult(operation: Operation, status: string)
      returns (published: bool, ghost read: nat, ghost readAt: Time, ghost at: nat)
      requires Valid() && operation.key != "" && operation.id !in recording
      modifies this
      ensures Valid() && old(events) <= events && operation.id !in recording
      ensures |old(events)| <= read <= |events| && old(now) <= readAt <= now
      ensures published <==>
                !Expired(EntryAfter(events[..read]), readAt) && EntryAfter(events[..read]).value.owner == operation.id
      ensures !published ==> NoneBy(events, |old(events)|, operation.id)
      ensures published ==>
                && read <= at < |events| && events[at].Published?
                && events[at].owner == operation.id && events[at].status == status
                && NoneBy(events[..at], read, operation.id)
                && (EntryAfter(events[..at]).value.owner != operation.id <==> at > read)
    {
      Interfere(operation.id);
      read, at, readAt := |events|, |events|, now;
      published := BeginRecord(operation.id);
      assert events[..read] == events;
      if published {
        at := Publish(operation.id, status, read);
      }
    }

    // The second half: whatever happens meanwhile, SET.
    method Publish(owner: string, status: string, ghost read: nat) returns (ghost at: nat)
      requires Valid() && owner in recording && read == |events|
      requires EntryAfter(events).Some? && EntryAfter(events).value.owner == owner
      modifies this
      ensures Valid() && old(events) <= events && old(now) <= now && owner !in recording
      ensures events[..read] == old(events)
      ensures read <= at < |events| && events[at].Published? && events[at].owner == owner && events[at].status == status
      ensures NoneBy(events[..at], read, owner)
      ensures EntryAfter(events[..at]).Some? && (EntryAfter(events[..at]).value.owner != owner <==> at > read)
    {
      ghost var seen := events;
      hide *;
      Interfere(owner);
      at := |events|;
      ghost var before := events;
      FinishRecord(owner, status);
      assert events[..read] == seen && before[..read] == seen && events[..at] == before;
      LastWriter(before, read, owner);
    }

    // What that takes: a worker reads its entry, stalls until the entry has run
    // out, another one is granted the key, and the first one writes.
    method LateWorkerRun(late: string, newer: string)
      requires Valid() && events == [] && recording == {} && late != newer
      modifies this
      ensures Valid()
      ensures events == LateWrite(late, newer, old(now), ttl)
      ensures !Expired(Some(EntryOf(events[1])), events[2].at) && EntryAfter(events).value.owner == late
    {
      ReserveAndRead(late);
      StallToExpiry(late);
      TakeOver(late, newer);
      ghost var taken := events;
      hide *;
      FinishRecord(late, "success");
      Three(taken[0], taken[1], events[2], late);
    }

    method ReserveAndRead(late: string)
      requires Valid() && events == [] && recording == {}
      modifies this
      ensures Valid() && now == old(now) && recording == {late}
      ensures events == [Granted(late, now, now + ttl)]
    {
      RedisHolds(events, entry, now, ttl, recording);
      assert Expired(entry, now);
      hide *;
      var first := SetIfAbsent(late);
      One(events, Granted(late, now, now + ttl), now);
      var mine := BeginRecord(late);
      assert recording == {late};
    }

    method TakeOver(late: string, newer: string)
      requires Valid() && recording == {late} && events == [Granted(late, now - ttl, now)]
      modifies this
      ensures Valid() && now == old(now) && recording == {late}
      ensures events == [Granted(late, now - ttl, now), Granted(newer, now, now + ttl)]
    {
      RedisHolds(events, entry, now, ttl, recording);
      hide RedisGood, InForce;
      var second := SetIfAbsent(newer);
    }

    method StallToExpiry(late: string)
      requires Valid()
      modifies this`now
      ensures Valid() && now == old(now) + ttl && ttl > 0.0
    {
      RedisHolds(events, entry, now, ttl, recording);
      RedisWaits(events, entry, now, ttl, recording, now + ttl, late);
      hide RedisGood;
      now := now + ttl;
    }
  }

  lemma One(events: seq<Event>, e: Event, now: Time)
    requires events == [] + [e] && now < e.expiresAt
    ensures events == [e] && EntryAfter(events) == Some(EntryOf(e)) && EntryAfter(events).value.owner == e.owner
    ensures !Expired(EntryAfter(events), now)
  {
  }

  lemma Three(a: Event, b: Event, c: Event, owner: string)
    requires c.owner == owner
    ensures [a, b] + [c] == [a, b, c] && EntryAfter([a, b, c]).Some? && EntryAfter([a, b, c]).value.owner == owner
  {
  }

  function LateWrite(late: string, newer: string, start: Time, ttl: Time): seq<Event> {
    [Granted(late, start, start + ttl), Granted(newer, start + ttl, start + ttl + ttl),
     Published(late, "success", start + ttl, start + ttl + ttl)]
  }

  // Between a worker's read and its write nobody else wrote exactly when the
  // entry is still its own.
  lemma LastWriter(events: seq<Event>, read: nat, owner: string)
    requires read <= |events| && NoneBy(events, read, owner)
    requires EntryAfter(events[..read]).Some? && EntryAfter(events[..read]).value.owner == owner
    ensures EntryAfter(events).Some? && (EntryAfter(events).value.owner != owner <==> |events| > read)
  {
    if |events| == read {
      assert events[..read] == events;
    }
  }

  // A write in between means that the entry read had run out and was granted
  // anew, or that another late worker wrote; without either the SET hits the
  // entry it read.
  lemma TakenOver(events: seq<Event>, read: nat, at: nat)
    requires WellGranted(events) && read < at <= |events|
    ensures events[read].Published? || Expired(EntryAfter(events[..read]), events[read].at)
  {
  }

  // ---------------------------------------------------------------------
  // PostgreSQL: INSERT or guarded reclaim, guarded publish
  // ---------------------------------------------------------------------

  // Every result was published under the owner then on the row.
  ghost predicate OwnerPublishes(events: seq<Event>) {
    forall j :: 0 <= j < |events| && events[j].Published? ==>
      EntryAfter(events[..j]).Some? && EntryAfter(events[..j]).value.owner == events[j].owner
  }

  lemma OwnerPublishesAppend(events: seq<Event>, e: Event)
    requires OwnerPublishes(events)
    requires e.Published? ==> EntryAfter(events).Some? && EntryAfter(events).value.owner == e.owner
    ensures OwnerPublishes(events + [e])
  {
    var longer := events + [e];
    forall j | 0 <= j < |longer| && longer[j].Published?
      ensures EntryAfter(longer[..j]).Some? && EntryAfter(longer[..j]).value.owner == longer[j].owner
    {
      assert longer[..j] == events[..j];
      assert events[..|events|] == events;
    }
  }

  // A result is only ever published by the latest claimant, so a late worker
  // never overwrites the row of a newer one.
  lemma {:induction false} LatestClaimantPublishes(events: seq<Event>, j: nat) returns (g: nat)
    requires OwnerPublishes(events) && j < |events| && events[j].Published?
    ensures g < j && events[g].Granted? && events[g].owner == events[j].owner
    ensures forall k :: g < k < j ==> !events[k].Granted?
    decreases j
  {
    assert events[..j] != [];
    assert events[..j][j - 1] == events[j - 1];
    if events[j - 1].Granted? {
      g := j - 1;
    } else {
      g := LatestClaimantPublishes(events, j - 1);
    }
  }

  lemma KeptForLess(events: seq<Event>, lifetime: Time, less: Time)
    requires KeptFor(events, lifetime) && less <= lifetime
    ensures KeptFor(events, less)
  {
  }

  class PostgresOperationRow {
    var row: Option<Entry>
    var now: Time
    const ttl: Time
    // The longest time between computing an expiry and its statement so far.
    ghost var slowest: Time
    ghost var events: seq<Event>

    ghost predicate Valid()
      reads this
    {
      && WellGranted(events) && OwnerPublishes(events) && KeptFor(events, ttl - slowest)
      && row == EntryAfter(events)
      && (events != [] ==> events[|events| - 1].at <= now)
    }

    constructor (ttl: Time, now: Time)
      ensures Valid() && events == [] && slowest == 0.0
    {
      this.ttl, this.now := ttl, now;
      row, events, slowest := None, [], 0.0;
    }

    ghost method Note(e: Event)
      requires Valid() && e.at == now && e.expiresAt <= now + ttl
      requires e.Granted? ==> Expired(row, now)
      requires e.Published? ==> row.Some? && row.value.owner == e.owner
      modifies this`events, this`slowest
      ensures events == old(events) + [e] && WellGranted(events) && OwnerPublishes(events) && KeptFor(events, ttl - slowest)
      ensures slowest == if now + ttl - e.expiresAt > old(slowest) then now + ttl - e.expiresAt else old(slowest)
    {
      WellGrantedAppend(events, e);
      OwnerPublishesAppend(events, e);
      hide WellGranted, OwnerPublishes;
      if now + ttl - e.expiresAt > slowest {
        KeptForLess(events, ttl - slowest, e.expiresAt - now);
        slowest := now + ttl - e.expiresAt;
      }
      events := events + [e];
    }

    // INSERT ... ON CONFLICT DO NOTHING, which an expired row still blocks.
    method Insert(owner: string, expiresAt: Time) returns (reserved: bool)
      requires Valid() && expiresAt <= now + ttl
      modifies this
      ensures Valid() && now == old(now)
      ensures reserved <==> old(row).None?
      ensures events == if reserved then old(events) + [Granted(owner, now, expiresAt)] else old(events)
    {
      hide WellGranted, OwnerPublishes, KeptFor;
      if row.Some? {
        return false;
      }
      Note(Granted(owner, now, expiresAt));
      row := Some(Entry(owner, "in_progress", expiresAt));
      reserved := true;
    }

    // UPDATE ... WHERE expires_at <= now()
    method Reclaim(owner: string, expiresAt: Time) returns (reclaimed: bool)
      requires Valid() && expiresAt <= now + ttl
      modifies this
      ensures Valid() && now == old(now)
      ensures reclaimed <==> old(row).Some? && old(row).value.expiresAt <= now
      ensures events == if reclaimed then old(events) + [Granted(owner, now, expiresAt)] else old(events)
    {
      hide WellGranted, OwnerPublishes, KeptFor;
      if row.None? || row.value.expiresAt > now {
        return false;
      }
      Note(Granted(owner, now, expiresAt));
      row := Some(Entry(owner, "in_progress", expiresAt));
      reclaimed := true;
    }

    // UPDATE ... WHERE operation_id = owner: whether the row has expired makes
    // no difference.
    method Publish(owner: string, status: string, expiresAt: Time) returns (published: bool)
      requires Valid() && expiresAt <= now + ttl
      modifies this
      ensures Valid() && now == old(now)
      ensures published <==> old(row).Some? && old(row).value.owner == owner
      ensures events == if published then old(events) + [Published(owner, status, now, expiresAt)] else old(events)
    {
      hide WellGranted, OwnerPublishes, KeptFor;
      if row.None? || row.value.owner != owner {
        return false;
      }
      Note(Published(owner, status, now, expiresAt));
      row := Some(Entry(owner, status, expiresAt));
      published := true;
    }

    // Other workers run their statements while time passes.
    method Interfere(me: string)
      requires Valid()
      modifies this
      ensures Valid() && old(events) <= events && old(now) <= now
      ensures NoneBy(events, |old(events)|, me)
    {
      var steps: nat := *;
      ghost var first := events;
      while steps > 0
        invariant Valid() && first == old(events) <= events && old(now) <= now
        invariant NoneBy(events, |first|, me)
      {
        hide Valid, NoneBy;
        ghost var before := events;
        InterfereOnce(me);
        NoneByJoined(before, events, |first|, me);
        steps := steps - 1;
      }
    }

    method InterfereOnce(me: string)
      requires Valid()
      modifies this
      ensures Valid() && old(events) <= events && old(now) <= now
      ensures NoneBy(events, |old(events)|, me)
    {
      hide WellGranted, EntryAfter, OwnerPublishes, KeptFor;
      var elapsed: Time, lag: Time, owner: string, status: string, statement: nat := *, *, *, *, *;
      if elapsed > 0.0 {
        now := now + elapsed;
      }
      var expiresAt := if lag > 0.0 then now - lag + ttl else now + ttl;
      if owner != me {
        if statement == 0 {
          var _ := Insert(owner, expiresAt);
        } else if statement == 1 {
          var _ := Reclaim(owner, expiresAt);
        } else {
          var _ := Publish(owner, status, expiresAt);
        }
      }
    }

    method Claim(operation: Operation) returns (granted: bool, prior: Option<Entry>, ghost at: nat)
      requires Valid() && operation.key != ""
      modifies this
      ensures Valid() && old(events) <= events
      ensures granted ==> OneBy(events, |old(events)|, at, operation.id) && events[at].Granted? && prior.None?
      ensures granted ==> events[at].expiresAt == old(now) + ttl && old(now) <= events[at].at
      ensures !granted ==>
                && NoneBy(events, |old(events)|, operation.id) && prior.Some?
                && HeldAt(events, |old(events)|, at, old(now))
    {
      hide WellGranted, NoneBy, OneBy, OwnerPublishes, HeldAt;
      prior := None;
      var expiresAt := now + ttl;
      ghost var first := events;
      Interfere(operation.id);
      ghost var before := events;
      at := |events|;
      granted := Insert(operation.id, expiresAt);
      if granted {
        OneByAppended(before, |first|, events[at]);
        return;
      }
      Interfere(operation.id);
      NoneByJoined(before, events, |first|, operation.id);
      before, at := events, |events|;
      granted := Reclaim(operation.id, expiresAt);
      if granted {
        OneByAppended(before, |first|, events[at]);
        return;
      }
      HeldNow(events, |first|, row, old(now), now);
      hide EntryAfter;
      Interfere(operation.id);
      NoneByJoined(before, events, |first|, operation.id);
      HeldBefore(before, events, |first|, at, old(now));
      prior := if Expired(row, now) then Some(Entry("", "in_progress", now)) else row;
    }

    method RecordResult(operation: Operation, status: string) returns (published: bool, ghost at: nat)
      requires Valid() && operation.key != ""
      modifies this
      ensures Valid() && old(events) <= events
      ensures published ==> OneBy(events, |old(events)|, at, operation.id)
                            && events[at].Published? && events[at].status == status
      ensures !published ==>
                && NoneBy(events, |old(events)|, operation.id) && |old(events)| <= at <= |events|
                && (var seen := EntryAfter(events[..at]); seen.None? || seen.value.owner != operation.id)
    {
      hide WellGranted, NoneBy, OneBy, OwnerPublishes;
      var expiresAt := now + ttl;
      ghost var first := events;
      Interfere(operation.id);
      ghost var before := events;
      at := |events|;
      assert events[..at] == events;
      hide EntryAfter;
      published := Publish(operation.id, status, expiresAt);
      if published {
        OneByAppended(before, |first|, events[at]);
      }
    }

    method Wait(elapsed: Time)
      requires Valid() && elapsed >= 0.0
      modifies this`now
      ensures Valid() && now == old(now) + elapsed
    {
      now := now + elapsed;
    }

    // A result that arrives after the reservation expired is not ignored while
    // nobody has reclaimed the row: it is stored and revives the entry.
    method LateResultRevives(owner: string, late: Time)
      requires Valid() && events == [] && late >= ttl > 0.0
      modifies this
      ensures Valid() && now == old(now) + late
      ensures events == [Granted(owner, old(now), old(now) + ttl), Published(owner, "success", now, now + ttl)]
      ensures Expired(EntryAfter(events[..1]), now) && row == Some(Entry(owner, "success", now + ttl)) && !Expired(row, now)
    {
      hide WellGranted, OwnerPublishes, KeptFor;
      var reserved := Insert(owner, now + ttl);
      Wait(late);
      assert events[..1] == events;
      var published := Publish(owner, "success", now + ttl);
      assert events[..1] == [events[0]];
    }

    // The lifetime of a reservation is counted from before the claim's first
    // statement. A claim that takes the whole lifetime grants a reservation that
    // has run out already, and only such a claim lets somebody else have the key
    // at once.
    method SlowClaimRun(slow: string, next: string, lag: Time) returns (first: bool, second: bool)
      requires Valid() && events == [] && lag >= 0.0 && ttl > 0.0
      modifies this
      ensures Valid() && now == old(now) + lag && first
      ensures second <==> lag >= ttl
      ensures events == [Granted(slow, now, old(now) + ttl)] + if second then [Granted(next, now, now + ttl)] else []
    {
      hide WellGranted, OwnerPublishes, KeptFor;
      var expiresAt := now + ttl;
      Wait(lag);
      first := Insert(slow, expiresAt);
      expiresAt := now + ttl;
      second := Insert(next, expiresAt);
      if !second {
        second := Reclaim(next, expiresAt);
      }
    }
  }
}
