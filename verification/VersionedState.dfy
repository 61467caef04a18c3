// One versioned record shared by any number of writers. Its history lists every
// change of the record in the order in which the store applied them.
module VersionedState {
  import opened Wrappers

  type Time = real

  // A stored document, or bytes that do not decode to one.
  datatype Stored = Doc(version: nat, value: string, expiresAt: Option<Time>) | Garbage

  // Overwritten: some other program wrote bytes that are no document.
  datatype Kind = Updated | Created | Removed | Overwritten

  datatype Change = Change(writer: nat, kind: Kind, before: Option<Stored>, after: Option<Stored>)

  datatype Outcome = Written | Conflict(expected: nat, actual: int) | Unknown

  function VersionOf(record: Option<Stored>): nat {
    if record.Some? && record.value.Doc? then record.value.version else 0
  }

  // ---------------------------------------------------------------------
  // The specification: one atomic compare-and-set
  // ---------------------------------------------------------------------

  // The check every backend makes, `expected` 0 meaning that the writer does
  // not mind. It yields the version to write.
  function Check(current: nat, expected: nat): Result<nat, Outcome> {
    if current == 0 then
      if expected != 0 then Failure(Conflict(expected, 0)) else Success(1)
    else if expected != 0 && expected != current then Failure(Conflict(expected, current))
    else Success(current + 1)
  }

  // A change that is a successful compare-and-set of version `expected`.
  ghost predicate CasApplied(change: Change, writer: nat, expected: nat, value: string) {
    && change.writer == writer && change.kind == Updated
    && VersionOf(change.before) == expected
    && (change.after.Some? ==>
          change.after.value.Doc? && change.after.value.version == expected + 1 && change.after.value.value == value)
  }

  // The changes a store admits: updates move the version up by one or let an
  // expired record go, creations start over at 1 or refresh what is there.
  ghost predicate Lawful(change: Change) {
    match change.kind
    case Updated =>
      change.after.Some? ==> change.after.value.Doc? && change.after.value.version == VersionOf(change.before) + 1
    case Created =>
      change.after.Some? ==>
        change.after.value.Doc? &&
        (change.after.value.version == 1 || change.after.value.version == VersionOf(change.before) >= 1)
    case Removed => change.after.None?
    case Overwritten => change.after == Some(Garbage)
  }

  function Latest(history: seq<Change>): Option<Stored> {
    if history == [] then None else history[|history| - 1].after
  }

  ghost predicate Linked(history: seq<Change>) {
    forall i :: 0 <= i < |history| ==> Lawful(history[i]) && history[i].before == Latest(history[..i])
  }

  lemma LinkedAppend(history: seq<Change>, change: Change)
    requires Linked(history) && Lawful(change) && change.before == Latest(history)
    ensures Linked(history + [change])
  {
    var longer := history + [change];
    forall i | 0 <= i < |longer|
      ensures Lawful(longer[i]) && longer[i].before == Latest(longer[..i])
    {
      assert longer[..i] == history[..i];
      assert history[..|history|] == history;
    }
  }

  // Between `from` and `to` the record was neither removed nor created anew.
  ghost predicate SameIncarnation(history: seq<Change>, from: nat, until: nat)
    requires until <= |history|
  {
    forall k :: from <= k < until ==> history[k].after.Some? && history[k].kind == Updated
  }

  lemma {:induction false} VersionsClimb(history: seq<Change>, from: nat, until: nat)
    requires Linked(history) && from < until <= |history| && SameIncarnation(history, from, until)
    ensures VersionOf(history[until - 1].after) == VersionOf(history[from].before) + (until - from)
    decreases until
  {
    if from + 1 < until {
      VersionsClimb(history, from, until - 1);
      assert history[..until - 1][until - 2] == history[until - 2];
    }
  }

  // No lost update: of all updates made from the same version, at most one
  // succeeds before the record is removed or created again.
  lemma NoLostUpdate(history: seq<Change>, i: nat, j: nat, expected: nat, w1: nat, w2: nat, v1: string, v2: string)
    requires Linked(history) && i < |history| && j < |history|
    requires CasApplied(history[i], w1, expected, v1) && CasApplied(history[j], w2, expected, v2)
    requires SameIncarnation(history, if i < j then i else j, if i < j then j else i)
    ensures i == j
  {
    if i < j {
      VersionsClimb(history, i, j);
    } else if j < i {
      VersionsClimb(history, j, i);
    }
  }

  // Exactly one of the changes from `from` on is the writer's own.
  ghost predicate OneOwn(history: seq<Change>, from: nat, at: nat, writer: nat) {
    && from <= at < |history|
    && history[at].writer == writer
    && forall k :: from <= k < |history| && k != at ==> history[k].writer != writer
  }

  ghost predicate NoOwn(history: seq<Change>, from: nat, writer: nat) {
    forall k :: from <= k < |history| ==> history[k].writer != writer
  }

  // At this place of the history the record had this version.
  ghost predicate ReadAt(history: seq<Change>, from: nat, at: nat, version: int) {
    from <= at <= |history| && VersionOf(Latest(history[..at])) == version
  }

  lemma ReadNow(history: seq<Change>, from: nat, record: Option<Stored>)
    requires from <= |history| && record == Latest(history)
    ensures ReadAt(history, from, |history|, VersionOf(record))
  {
    assert history[..|history|] == history;
  }

  lemma ReadBefore(before: seq<Change>, after: seq<Change>, from: nat, at: nat, version: int)
    requires before <= after && ReadAt(before, from, at, version)
    ensures ReadAt(after, from, at, version)
  {
    assert before[..at] == after[..at];
  }

  lemma NoOwnJoined(before: seq<Change>, after: seq<Change>, from: nat, writer: nat)
    requires before <= after && NoOwn(before, from, writer) && NoOwn(after, |before|, writer)
    ensures NoOwn(after, from, writer)
  {
  }

  lemma OwnAppended(history: seq<Change>, from: nat, change: Change)
    requires from <= |history| && NoOwn(history, from, change.writer)
    ensures OneOwn(history + [change], from, |history|, change.writer)
  {
  }

  // What a second call with the same object expects: the snapshot's version, or
  // the one after it if the first call lost a race.
  function Expected(snapshot: nat, lost: nat): nat {
    if lost == 0 then snapshot else snapshot + 1
  }

  lemma OwnLater(before: seq<Change>, after: seq<Change>, from: nat, at: nat, me: nat)
    requires from <= |before| && before <= after && NoOwn(before, from, me)
    ensures OneOwn(after, |before|, at, me) ==> OneOwn(after, from, at, me)
    ensures NoOwn(after, |before|, me) ==> NoOwn(after, from, me)
  {
  }

  lemma ReadEarlier(history: seq<Change>, from: nat, earlier: nat, at: nat, version: int)
    requires earlier <= from && ReadAt(history, from, at, version)
    ensures ReadAt(history, earlier, at, version)
  {
  }

  // A session as its holder has it in hand.
  class SessionContext {
    var version: nat
    var value: string
    var expiresAt: Option<Time>

    constructor (version: nat, value: string)
      ensures this.version == version && this.value == value && expiresAt == None
    {
      this.version, this.value, expiresAt := version, value, None;
    }
  }

  // ---------------------------------------------------------------------
  // Redis: WATCH / GET / MULTI / EXEC
  // ---------------------------------------------------------------------

  // The expiry an update writes: a new one when a ttl is given, else the one
  // the record has.
  function ExpiryFor(ttl: Option<Time>, existing: Option<Stored>, now: Time): Option<Time> {
    if ttl.Some? then Some(now + ttl.value)
    else if existing.Some? && existing.value.Doc? then existing.value.expiresAt
    else None
  }

  predicate Alive(expiresAt: Option<Time>, now: Time) {
    expiresAt.None? || expiresAt.value > now
  }

  // The whole seconds the client asks Redis to keep the key, by its own clock
  // when it queues the commands; 0 makes it delete the key instead.
  function RemainingTtl(expiresAt: Option<Time>, now: Time): Option<int> {
    if expiresAt.None? then None
    else
      var remaining := expiresAt.value - now;
      if remaining <= 0.0 then Some(0)
      else
        var whole := -(-remaining).Floor;
        Some(if whole < 1 then 1 else whole)
  }

  // What an update or a creation writes, none for a lapsed expiry.
  function Kept(version: nat, value: string, expiresAt: Option<Time>, now: Time): Option<Stored> {
    if RemainingTtl(expiresAt, now) == Some(0) then None else Some(Doc(version, value, expiresAt))
  }

  // The server counts the changes of a key; WATCH remembers the count.
  class RedisSession {
    var record: Option<Stored>
    var revision: nat
    ghost var history: seq<Change>
    // Commands and replies that were lost.
    ghost var faults: nat

    ghost predicate Valid()
      reads this
    {
      Linked(history) && record == Latest(history) && revision == |history|
    }

    constructor ()
      ensures Valid() && history == []
    {
      record, revision, history, faults := None, 0, [], 0;
    }

    method Apply(writer: nat, kind: Kind, after: Option<Stored>)
      requires Valid() && Lawful(Change(writer, kind, record, after))
      modifies this`record, this`revision, this`history
      ensures Valid() && record == after
      ensures history == old(history) + [Change(writer, kind, old(record), after)]
    {
      LinkedAppend(history, Change(writer, kind, record, after));
      history := history + [Change(writer, kind, record, after)];
      record, revision := after, revision + 1;
    }

    // A command or a reply gets through, or is lost.
    method GetsThrough() returns (ok: bool)
      modifies this`faults
      ensures faults == old(faults) + if ok then 0 else 1
    {
      ok := *;
      faults := faults + if ok then 0 else 1;
    }

    // Other writers act in any number, and the key may expire.
    method Interfere(me: nat)
      requires Valid()
      modifies this`record, this`revision, this`history
      ensures Valid() && old(history) <= history && NoOwn(history, |old(history)|, me)
    {
      var steps: nat := *;
      while steps > 0
        invariant Valid() && old(history) <= history && NoOwn(history, |old(history)|, me)
      {
        var writer: nat, version: nat, value: string, expiresAt: Option<Time> := *, *, *, *;
        var kind: Kind, removes: bool := *, *;
        if writer != me {
          var after := match kind
            case Removed => None
            case Overwritten => Some(Garbage)
            case Created => if removes then None else Some(Doc(1, value, expiresAt))
            case Updated => if removes then None else Some(Doc(VersionOf(record) + 1, value, expiresAt));
          Apply(writer, kind, after);
        }
        steps := steps - 1;
      }
    }

    // A new document under the session's id replaces whatever is there; with
    // no time to live it is removed instead.
    method Create(value: string, ttl: Option<Time>, now: Time, later: Time, me: nat) returns (session: SessionContext)
      requires Valid() && now <= later
      modifies this`record, this`revision, this`history
      ensures Valid() && fresh(session) && session.version == 1 && session.value == value
      ensures record == if ttl.None? then Some(Doc(1, value, None))
                        else if now + ttl.value > later then Some(Doc(1, value, Some(now + ttl.value)))
                        else None
      ensures history == old(history) + [Change(me, Created, old(record), record)]
    {
      var expiresAt := if ttl.Some? then Some(now + ttl.value) else None;
      session := new SessionContext(1, value);
      Apply(me, Created, Kept(1, value, expiresAt, later));
    }

    method Remove(me: nat)
      requires Valid()
      modifies this`record, this`revision, this`history
      ensures Valid() && record == None && history == old(history) + [Change(me, Removed, old(record), None)]
    {
      Apply(me, Removed, None);
    }

    method Watch() returns (watched: nat)
      ensures watched == revision
    {
      watched := revision;
    }

    // The check of what GET returned. When it passes, the holder's object is
    // moved on to the version and the expiry about to be written.
    method Prepare(session: SessionContext, existing: Option<Stored>, expected: nat, ttl: Option<Time>, now: Time)
      returns (refused: Option<Outcome>, expiresAt: Option<Time>)
      modifies session
      ensures session.value == old(session.value) && expiresAt == ExpiryFor(ttl, existing, now)
      ensures refused.Some? <==> expected != 0 && expected != VersionOf(existing)
      ensures refused.Some? ==> refused == Some(Conflict(expected, VersionOf(existing))) && session.version == old(session.version)
      ensures refused.None? ==> session.version == VersionOf(existing) + 1
    {
      expiresAt := ExpiryFor(ttl, existing, now);
      var check := Check(VersionOf(existing), expected);
      if check.Failure? {
        return Some(check.error), expiresAt;
      }
      refused := None;
      session.version := check.value;
      if expiresAt.Some? {
        session.expiresAt := expiresAt;
      }
    }

    // EXEC takes effect only if nothing changed the record since it was watched.
    method Exec(session: SessionContext, expiresAt: Option<Time>, queuedAt: Time, watched: nat, me: nat) returns (done: bool)
      requires Valid() && (watched == revision ==> session.version == VersionOf(record) + 1)
      modifies this`record, this`revision, this`history
      ensures Valid() && (done <==> watched == old(revision))
      ensures done ==> history == old(history) + [Change(me, Updated, old(record), record)]
      ensures done ==> record == if expiresAt.None? || expiresAt.value > queuedAt
                                 then Some(Doc(session.version, session.value, expiresAt)) else None
      ensures !done ==> record == old(record) && revision == old(revision) && history == old(history)
    {
      done := revision == watched;
      if done {
        Apply(me, Updated, Kept(session.version, session.value, expiresAt, queuedAt));
      }
    }

    // One pass of WATCH, GET, check, MULTI and EXEC, other writers acting in
    // between. Any command may not arrive, and any reply may be lost. No outcome
    // means a lost race.
    method TryOnce(session: SessionContext, ttl: Option<Time>, expected: nat, me: nat)
      returns (outcome: Option<Outcome>, ghost at: nat, ghost preparedAt: Time, ghost queuedAt: Time)
      requires Valid()
      modifies this`record, this`revision, this`history, this`faults, session
      ensures Valid() && old(history) <= history && session.value == old(session.value)
      ensures preparedAt <= queuedAt
      ensures outcome.None? ==>
                && NoOwn(history, |old(history)|, me) && |history| > |old(history)|
                && (expected >= 1 ==> session.version == expected + 1)
      ensures outcome == Some(Written) ==>
                && OneOwn(history, |old(history)|, at, me)
                && WroteSession(history[at], session, expected, ttl, preparedAt, queuedAt, me)
      ensures outcome == Some(Unknown) ==> NoOwn(history, |old(history)|, me) || OneOwn(history, |old(history)|, at, me)
      ensures faults >= old(faults) && (faults > old(faults) <==> outcome == Some(Unknown))
      ensures outcome.Some? && outcome.value.Conflict? ==>
                && NoOwn(history, |old(history)|, me) && outcome.value.expected == expected
                && session.version == old(session.version)
                && ReadAt(history, |old(history)|, at, outcome.value.actual)
                && outcome.value.actual >= 0 && expected >= 1 && outcome.value.actual != expected
    {
      hide Linked, Latest, OneOwn, NoOwn, ReadAt;
      at, preparedAt, queuedAt := 0, 0.0, 0.0;
      Interfere(me);
      ghost var first := history;
      var watched := Watch();
      Interfere(me);
      var answered := GetsThrough();
      if !answered {
        NoOwnJoined(first, history, |old(history)|, me);
        return Some(Unknown), at, preparedAt, queuedAt;
      }
      var existing := record;
      ghost var seen := history;
      NoOwnJoined(first, history, |old(history)|, me);
      var readAt: Time, queueAt: Time := *, *;
      if queueAt < readAt {
        queueAt := readAt;
      }
      preparedAt, queuedAt := readAt, queueAt;
      var refused, expiresAt := Prepare(session, existing, expected, ttl, readAt);
      if refused.Some? {
        ReadNow(history, |old(history)|, record);
        return refused, |history|, preparedAt, queuedAt;
      }
      Interfere(me);
      NoOwnJoined(seen, history, |old(history)|, me);
      var sent := GetsThrough();
      if !sent {
        return Some(Unknown), at, preparedAt, queuedAt;
      }
      at := |history|;
      ghost var before := history;
      assert revision == watched ==> history == seen;
      var done := Exec(session, expiresAt, queueAt, watched, me);
      if done {
        OwnAppended(before, |old(history)|, history[at]);
      }
      var replied := GetsThrough();
      outcome := if !replied then Some(Unknown) else if done then Some(Written) else None;
    }

    // Three optimistic attempts. `at` is the place of the write in the history,
    // or of the read that a conflict reports; a conflict without a version stands
    // for three changes by others. `lost` is the number of races lost before.
    method Update(session: SessionContext, ttl: Option<Time>, expectedVersion: Option<nat>, me: nat)
      returns (outcome: Outcome, ghost at: nat, ghost lost: nat, ghost preparedAt: Time, ghost queuedAt: Time)
      requires Valid()
      modifies this`record, this`revision, this`history, this`faults, session
      ensures Valid() && old(history) <= history && session.value == old(session.value)
      ensures preparedAt <= queuedAt
      ensures outcome.Unknown? ==> NoOwn(history, |old(history)|, me) || OneOwn(history, |old(history)|, at, me)
      ensures faults >= old(faults) && (faults > old(faults) <==> outcome.Unknown?)
      ensures outcome.Written? ==>
                && OneOwn(history, |old(history)|, at, me)
                && WroteSession(history[at], session, if expectedVersion.Some? then expectedVersion.value else old(session.version),
                                ttl, preparedAt, queuedAt, me)
      ensures outcome.Conflict? ==>
                && NoOwn(history, |old(history)|, me)
                && outcome.expected == (if expectedVersion.Some? then expectedVersion.value else old(session.version))
                && (if outcome.actual == -1 then |history| >= |old(history)| + 3
                    else
                      && ReadAt(history, |old(history)|, at, outcome.actual)
                      && outcome.actual >= 0 && outcome.expected >= 1 && outcome.actual != outcome.expected)
                && (outcome.expected >= 1 ==>
                      session.version == if lost == 0 then old(session.version) else outcome.expected + 1)
    {
      hide WroteSession, Linked, Lawful, Latest, VersionOf;
      var expected := GetOr(expectedVersion, session.version);
      at, lost, preparedAt, queuedAt := 0, 0, 0.0, 0.0;
      for attempt := 0 to 3
        invariant Valid() && old(history) <= history && NoOwn(history, |old(history)|, me)
        invariant session.value == old(session.value) && preparedAt <= queuedAt
        invariant faults == old(faults)
        invariant lost == attempt && |history| >= |old(history)| + attempt
        invariant expected >= 1 ==> session.version == if lost == 0 then old(session.version) else expected + 1
      {
        var tried: Option<Outcome>;
        tried, at, preparedAt, queuedAt := TryOnce(session, ttl, expected, me);
        if tried.Some? {
          return tried.value, at, lost, preparedAt, queuedAt;
        }
        lost := lost + 1;
      }
      outcome := Conflict(expected, -1);
    }

    // A caller that hands the same object in again after a conflict. If a race
    // was lost before, the object is one version ahead of its snapshot. The
    // second call then writes exactly where it reads the version after the
    // snapshot's, whoever wrote that and in whatever incarnation of the record,
    // and otherwise reports the version it read; only three further lost races
    // leave it without a version.
    method RetrySameObject(session: SessionContext, ttl: Option<Time>, me: nat)
      returns (first: Outcome, second: Outcome, ghost lost: nat, ghost at: nat)
      requires Valid() && session.version >= 1
      modifies this`record, this`revision, this`history, this`faults, session
      ensures Valid() && old(history) <= history && session.value == old(session.value)
      ensures faults >= old(faults) && (faults > old(faults) <==> second.Unknown?)
      ensures first.Conflict? && second.Written? ==>
                && OneOwn(history, |old(history)|, at, me)
                && CasApplied(history[at], me, Expected(old(session.version), lost), session.value)
      ensures first.Conflict? && second.Conflict? ==>
                && NoOwn(history, |old(history)|, me) && second.expected == Expected(old(session.version), lost)
                && (second.actual != -1 ==>
                      ReadAt(history, |old(history)|, at, second.actual) && second.actual != second.expected)
    {
      hide WroteSession, CasApplied, Linked, Lawful, OneOwn, NoOwn, ReadAt;
      ghost var preparedAt, queuedAt;
      first, at, lost, preparedAt, queuedAt := Update(session, ttl, None, me);
      second := first;
      if first.Conflict? {
        ghost var again, middle := 0, history;
        second, at, again, preparedAt, queuedAt := Update(session, ttl, None, me);
        OwnLater(middle, history, |old(history)|, at, me);
        if second.Written? {
          WrittenIsCas(history[at], session, Expected(old(session.version), lost), ttl, preparedAt, queuedAt, me);
        } else if second.Conflict? && second.actual != -1 {
          ReadEarlier(history, |middle|, |old(history)|, at, second.actual);
        }
      }
    }

    // A writer's whole pass without interference.
    method Pass(session: SessionContext, me: nat) returns (done: bool)
      requires Valid() && session.version >= 1 && VersionOf(record) == session.version
      modifies this`record, this`revision, this`history, session
      ensures Valid() && done && session.value == old(session.value) && session.version == old(session.version) + 1
      ensures history == old(history) + [Change(me, Updated, old(record), record)]
      ensures old(record).Some? && old(record).value.Doc? && old(record).value.expiresAt.None? ==>
                record == Some(Doc(session.version, session.value, None))
    {
      var watched := Watch();
      var before := record;
      var refused, expiresAt := Prepare(session, before, session.version, None, 0.0);
      done := Exec(session, expiresAt, 0.0, watched, me);
    }

    // `me` has a snapshot of version 1. Its first call loses a race against the
    // removal of the record and then reports that there is none. Somebody creates
    // the record anew and updates it. The same object handed in again now matches
    // version 2 of that record, and replaces it.
    method RetryHitsAnotherIncarnation(me: nat, other: nat, mine: string, theirs: string)
      returns (first: Option<Outcome>, second: Option<Outcome>)
      requires Valid() && me != other
      modifies this`record, this`revision, this`history
      ensures Valid() && first == Some(Conflict(1, 0)) && second == Some(Written)
      ensures var n := |old(history)|;
              && |history| == n + 5 && old(history) <= history
              && history[n].after == Some(Doc(1, theirs, None))
              && history[n + 1] == Change(other, Removed, Some(Doc(1, theirs, None)), None)
              && history[n + 2] == Change(other, Created, None, Some(Doc(1, theirs, None)))
              && history[n + 3] == Change(other, Updated, Some(Doc(1, theirs, None)), Some(Doc(2, theirs, None)))
              && history[n + 4] == Change(me, Updated, Some(Doc(2, theirs, None)), Some(Doc(3, mine, None)))
    {
      hide Linked, Latest;
      var theirSession := Create(theirs, None, 0.0, 0.0, other);
      var session := new SessionContext(record.value.version, mine);
      var watched := Watch();
      var refused, expiresAt := Prepare(session, record, 1, None, 0.0);
      Remove(other);
      var done := Exec(session, expiresAt, 0.0, watched, me);
      first, expiresAt := Prepare(session, record, 1, None, 0.0);
      theirSession := Create(theirs, None, 0.0, 0.0, other);
      var _ := Pass(theirSession, other);
      var written := Pass(session, me);
      second := if written then Some(Written) else None;
    }
  }

  // The one change a normal return stands for: the next version of the record
  // with the session's content, under the new expiry or the one the record had.
  // It survives the update exactly when that expiry is absent or lies ahead by
  // the client's clock when it queued the commands.
  ghost predicate WroteSession(
    change: Change, session: SessionContext, expected: nat, ttl: Option<Time>, preparedAt: Time, queuedAt: Time, me: nat)
    reads session
  {
    && change.writer == me && change.kind == Updated
    && var had := change.before.Some? && change.before.value.Doc?;
       && session.version == (if had then change.before.value.version + 1 else 1)
       && (expected >= 1 ==> had && change.before.value.version == expected)
       && var e := if ttl.Some? then Some(preparedAt + ttl.value)
                   else if had then change.before.value.expiresAt
                   else None;
          change.after == if e.None? || e.value > queuedAt then Some(Doc(session.version, session.value, e)) else None
  }

  lemma WrittenIsCas(
    change: Change, session: SessionContext, expected: nat, ttl: Option<Time>, preparedAt: Time, queuedAt: Time, me: nat)
    requires WroteSession(change, session, expected, ttl, preparedAt, queuedAt, me) && expected >= 1
    ensures CasApplied(change, me, expected, session.value)
  {
  }

  // A returned update has removed the record exactly when the expiry it wrote,
  // the new one or the one the record had, lay behind by the client's clock when
  // it queued the commands. Otherwise the key is kept for whole seconds that
  // cover what is left.
  lemma LapsedUpdateRemoves(version: nat, value: string, ttl: Option<Time>, existing: Option<Stored>, preparedAt: Time, queuedAt: Time)
    requires preparedAt <= queuedAt
    ensures Kept(version, value, ExpiryFor(ttl, existing, preparedAt), queuedAt).None? <==>
              if ttl.Some? then queuedAt - preparedAt >= ttl.value
              else existing.Some? && existing.value.Doc? && existing.value.expiresAt.Some? && existing.value.expiresAt.value <= queuedAt
    ensures var asked := RemainingTtl(ExpiryFor(ttl, existing, preparedAt), queuedAt);
            && (asked == Some(0) <==>
                  if ttl.Some? then queuedAt - preparedAt >= ttl.value
                  else existing.Some? && existing.value.Doc? && existing.value.expiresAt.Some? && existing.value.expiresAt.value <= queuedAt)
            && (asked.Some? && asked.value != 0 ==>
                  var left := ExpiryFor(ttl, existing, preparedAt).value - queuedAt;
                  asked.value >= 1 && (asked.value - 1) as real < left <= asked.value as real)
  {
  }

  // ---------------------------------------------------------------------
  // PostgreSQL: SELECT, then a guarded UPDATE
  // ---------------------------------------------------------------------

  // The expiry a write leaves: what is given, or where nothing is given and the
  // statement keeps it, what the row had.
  function ExpiryWritten(keeps: bool, given: Option<Time>, existing: Option<Stored>): Option<Time> {
    if given.None? && keeps && existing.Some? && existing.value.Doc? then existing.value.expiresAt else given
  }

  // The session provider's statements keep the row's expiry when none is given;
  // the memory provider's assign whatever is given.
  class PostgresRow {
    var row: Option<Stored>
    ghost var history: seq<Change>

    ghost predicate Valid()
      reads this
    {
      Linked(history) && row == Latest(history) && (row.Some? ==> row.value.Doc? && row.value.version >= 1)
    }

    constructor ()
      ensures Valid() && history == []
    {
      row, history := None, [];
    }

    ghost predicate Possible(change: Change)
      reads this
    {
      && change.before == row && Lawful(change)
      && (change.after.Some? ==> change.after.value.Doc? && change.after.value.version >= 1)
    }

    method Apply(writer: nat, kind: Kind, after: Option<Stored>)
      requires Valid() && Possible(Change(writer, kind, row, after))
      modifies this
      ensures Valid() && row == after
      ensures history == old(history) + [Change(writer, kind, old(row), after)]
    {
      LinkedAppend(history, Change(writer, kind, row, after));
      history := history + [Change(writer, kind, row, after)];
      row := after;
    }

    method Interfere(me: nat)
      requires Valid()
      modifies this
      ensures Valid() && old(history) <= history && NoOwn(history, |old(history)|, me)
    {
      var steps: nat := *;
      while steps > 0
        invariant Valid() && old(history) <= history && NoOwn(history, |old(history)|, me)
      {
        var writer: nat, value: string, expiresAt: Option<Time>, kind: Kind := *, *, *, *;
        if writer != me && kind != Overwritten {
          var after := match kind
            case Removed => None
            case Overwritten => row
            case Created => Some(Doc(if row.Some? then row.value.version else 1, value, expiresAt))
            case Updated => Some(Doc(VersionOf(row) + 1, value, expiresAt));
          Apply(writer, kind, after);
        }
        steps := steps - 1;
      }
    }

    // A row that exists keeps its version and content; creation only refreshes
    // its expiry.
    method Create(value: string, expiresAt: Option<Time>, me: nat) returns (session: SessionContext)
      requires Valid()
      modifies this
      ensures Valid() && fresh(session) && Some(session.version) == VersionIn(row)
      ensures session.version == if old(row).Some? then old(row).value.version else 1
      ensures old(row).Some? ==> row.value.value == old(row).value.value
    {
      var after := if row.Some?
        then Doc(row.value.version, row.value.value, if expiresAt.Some? then expiresAt else row.value.expiresAt)
        else Doc(1, value, expiresAt);
      Apply(me, Created, Some(after));
      session := new SessionContext(after.version, value);
    }

    method Delete(me: nat)
      requires Valid()
      modifies this
      ensures Valid() && history == old(history) + [Change(me, Removed, old(row), None)]
    {
      Apply(me, Removed, None);
    }

    // UPDATE ... WHERE version = actual RETURNING version
    method GuardedUpdate(actual: nat, value: string, expiresAt: Option<Time>, keeps: bool, me: nat) returns (version: Option<nat>)
      requires Valid() && actual >= 1
      modifies this
      ensures Valid()
      ensures version.Some? <==> VersionOf(old(row)) == actual
      ensures version.None? ==> history == old(history)
      ensures version.Some? ==>
                && version.value == actual + 1
                && old(row).Some? && old(row).value.Doc?
                && row == Some(Doc(actual + 1, value, if keeps && expiresAt.None? then old(row).value.expiresAt else expiresAt))
                && history == old(history) + [Change(me, Updated, old(row), row)]
    {
      if VersionOf(row) != actual {
        return None;
      }
      var kept := if keeps && expiresAt.None? then row.value.expiresAt else expiresAt;
      Apply(me, Updated, Some(Doc(actual + 1, value, kept)));
      version := Some(actual + 1);
    }

    // INSERT ... ON CONFLICT DO UPDATE SET version = version + 1
    method InsertOrBump(value: string, expiresAt: Option<Time>, keeps: bool, me: nat)
      requires Valid()
      modifies this
      ensures Valid() && history == old(history) + [Change(me, Updated, old(row), row)]
      ensures row == Some(Doc(VersionOf(old(row)) + 1, value, ExpiryWritten(keeps, expiresAt, old(row))))
    {
      var kept := if keeps && expiresAt.None? && row.Some? then row.value.expiresAt else expiresAt;
      Apply(me, Updated, Some(Doc(VersionOf(row) + 1, value, kept)));
    }

    // The optimistic write behind both the session and the memory provider:
    // read the version, check it, write under the guard. A conflict reports the
    // version read, which the check refused or somebody changed before the
    // write.
    method GuardedWrite(value: string, expected: nat, expiresAt: Option<Time>, keeps: bool, me: nat)
      returns (outcome: Outcome, version: nat, ghost at: nat)
      requires Valid()
      modifies this
      ensures Valid() && old(history) <= history
      ensures outcome.Written? ==>
                && OneOwn(history, |old(history)|, at, me)
                && WroteRow(history[at], value, expiresAt, keeps)
                && (expected >= 1 ==> CasApplied(history[at], me, expected, value) && version == expected + 1)
      ensures outcome.Conflict? ==>
                && NoOwn(history, |old(history)|, me) && outcome.expected == expected
                && ReadAt(history, |old(history)|, at, outcome.actual) && outcome.actual >= 0
                && ((expected >= 1 && outcome.actual != expected) || at < |history|)
      ensures !outcome.Unknown?
    {
      hide Linked, OneOwn, NoOwn, ReadAt;
      at := 0;
      Interfere(me);
      var actual := VersionOf(row);
      ghost var first := history;
      var check := Check(actual, expected);
      ReadNow(history, |old(history)|, row);
      if check.Failure? {
        return check.error, 0, |history|;
      }
      version := check.value;
      Interfere(me);
      NoOwnJoined(first, history, |old(history)|, me);
      ReadBefore(first, history, |old(history)|, |first|, actual);
      hide Latest;
      at := |history|;
      ghost var before := history;
      if actual == 0 {
        InsertOrBump(value, expiresAt, keeps, me);
      } else {
        var returned := GuardedUpdate(actual, value, expiresAt, keeps, me);
        if returned.None? {
          assert history != first;
          return Conflict(expected, actual), version, |first|;
        }
      }
      OwnAppended(before, |old(history)|, history[at]);
      outcome := Written;
    }

    // On a conflict the holder's object is left as it was.
    method UpdateSession(session: SessionContext, expectedVersion: Option<nat>, expiresAt: Option<Time>, me: nat)
      returns (outcome: Outcome, ghost at: nat)
      requires Valid()
      modifies this, session
      ensures Valid() && old(history) <= history && session.value == old(session.value)
      ensures outcome.Written? ==>
                && OneOwn(history, |old(history)|, at, me)
                && (var expected := if expectedVersion.Some? then expectedVersion.value else old(session.version);
                    expected >= 1 ==> CasApplied(history[at], me, expected, session.value) && session.version == expected + 1)
                && WroteRow(history[at], session.value, expiresAt, true)
      ensures outcome.Conflict? ==>
                && NoOwn(history, |old(history)|, me) && session.version == old(session.version)
                && ReadAt(history, |old(history)|, at, outcome.actual) && outcome.actual >= 0
                && (var expected := if expectedVersion.Some? then expectedVersion.value else old(session.version);
                    outcome.expected == expected && ((expected >= 1 && outcome.actual != expected) || at < |history|))
    {
      var version: nat;
      outcome, version, at := GuardedWrite(session.value, GetOr(expectedVersion, session.version), expiresAt, true, me);
      if outcome.Written? {
        session.version := version;
      }
    }

    // The memory provider's store: the entry takes its new version on success
    // only, and the row's expiry becomes the policy's, none included.
    method StoreEntry(entry: SessionContext, expectedVersion: Option<nat>, expiresAt: Option<Time>, me: nat)
      returns (outcome: Outcome, ghost at: nat)
      requires Valid()
      modifies this, entry
      ensures Valid() && old(history) <= history && entry.value == old(entry.value)
      ensures outcome.Written? ==>
                && OneOwn(history, |old(history)|, at, me)
                && (var expected := if expectedVersion.Some? then expectedVersion.value else old(entry.version);
                    expected >= 1 ==> CasApplied(history[at], me, expected, entry.value) && entry.version == expected + 1)
                && WroteRow(history[at], entry.value, expiresAt, false)
      ensures outcome.Conflict? ==>
                && NoOwn(history, |old(history)|, me) && entry.version == old(entry.version)
                && ReadAt(history, |old(history)|, at, outcome.actual) && outcome.actual >= 0
                && (var expected := if expectedVersion.Some? then expectedVersion.value else old(entry.version);
                    outcome.expected == expected && ((expected >= 1 && outcome.actual != expected) || at < |history|))
    {
      var version: nat;
      outcome, version, at := GuardedWrite(entry.value, GetOr(expectedVersion, entry.version), expiresAt, false, me);
      if outcome.Written? {
        entry.version := version;
      }
    }
  }

  // A write leaves the value, the next version and the expiry its statement says.
  ghost predicate WroteRow(change: Change, value: string, expiresAt: Option<Time>, keeps: bool) {
    var had := change.before.Some? && change.before.value.Doc?;
    change.after == Some(Doc(if had then change.before.value.version + 1 else 1, value,
                             if had && keeps && expiresAt.None? then change.before.value.expiresAt else expiresAt))
  }

  function VersionIn(row: Option<Stored>): Option<nat> {
    if row.Some? && row.value.Doc? then Some(row.value.version) else None
  }

  // ---------------------------------------------------------------------
  // The in-memory provider
  // ---------------------------------------------------------------------

  datatype Entry = Entry(version: nat, value: string, expiresAt: Option<Time>)

  // The check the in-memory provider makes. For a missing record it looks at
  // the explicit expectation and at the session's version separately.
  function InMemoryCheck(current: nat, expectedVersion: Option<nat>, sessionVersion: nat): Result<nat, Outcome> {
    var expected := GetOr(expectedVersion, sessionVersion);
    if current == 0 then
      if GetOr(expectedVersion, 0) != 0 || sessionVersion > 1 then Failure(Conflict(expected, 0)) else Success(1)
    else if expected != 0 && expected != current then Failure(Conflict(expected, current))
    else Success(current + 1)
  }

  // It decides like the shared backends exactly when the record exists, or the
  // caller did not pass off a version-1 snapshot as the latest; a removed
  // record is revived by its first snapshot, and a missing one refuses a later
  // snapshot even under an explicit expectation of 0.
  lemma InMemoryCheckAgrees(current: nat, expectedVersion: Option<nat>, sessionVersion: nat)
    ensures InMemoryCheck(current, expectedVersion, sessionVersion) == Check(current, GetOr(expectedVersion, sessionVersion))
       <==> current != 0
            || (expectedVersion.None? && sessionVersion != 1)
            || (expectedVersion.Some? && (expectedVersion.value != 0 || sessionVersion <= 1))
  {
  }

  class InMemorySessions {
    var entries: map<string, Entry>
    const defaultTtl: Option<Time>

    constructor (defaultTtl: Option<Time>)
      ensures entries == map[] && this.defaultTtl == defaultTtl
    {
      entries := map[];
      this.defaultTtl := defaultTtl;
    }

    function Expiry(ttl: Option<Time>, now: Time): Option<Time> {
      var effective := if ttl.Some? then ttl else defaultTtl;
      if effective.Some? then Some(now + effective.value) else None
    }

    method Create(id: string, value: string, ttl: Option<Time>, now: Time)
      modifies this
      ensures var lifetime := if ttl.Some? then ttl else defaultTtl;
              entries == old(entries)[id := Entry(1, value, if lifetime.Some? then Some(now + lifetime.value) else None)]
    {
      entries := entries[id := Entry(1, value, Expiry(ttl, now))];
    }

    // Reading an expired session drops it.
    method Get(id: string, now: Time) returns (found: Option<Entry>)
      modifies this
      ensures found.Some? <==>
                id in old(entries) && (old(entries)[id].expiresAt.None? || old(entries)[id].expiresAt.value > now)
      ensures found.Some? ==> found.value == old(entries)[id] && entries == old(entries)
      ensures found.None? ==> entries == old(entries) - {id}
    {
      if id in entries && !Alive(entries[id].expiresAt, now) {
        Delete(id);
        return None;
      }
      if id !in entries {
        assert entries - {id} == entries;
        return None;
      }
      found := Some(entries[id]);
    }

    // All or nothing: the version moves by one and the caller's session with
    // it, or a conflict changes neither.
    method Update(id: string, session: SessionContext, ttl: Option<Time>, expectedVersion: Option<nat>, now: Time)
      returns (outcome: Outcome)
      requires forall k <- entries :: entries[k].version >= 1
      modifies this, session
      ensures forall k <- entries :: entries[k].version >= 1
      ensures session.value == old(session.value)
      ensures var there := id in old(entries);
              var expected := if expectedVersion.Some? then expectedVersion.value else old(session.version);
              var refused := if there then expected !in {0, old(entries)[id].version}
                             else (expectedVersion.Some? && expectedVersion.value != 0) || old(session.version) > 1;
              var lifetime := if ttl.Some? then ttl else defaultTtl;
              if refused then
                && outcome == Conflict(expected, if there then old(entries)[id].version else 0)
                && entries == old(entries) && session.version == old(session.version)
              else
                && outcome == Written && session.version == (if there then old(entries)[id].version + 1 else 1)
                && entries == old(entries)[id := Entry(session.version, session.value,
                     if there && ttl.None? then old(entries)[id].expiresAt
                     else if lifetime.Some? then Some(now + lifetime.value) else None)]
      ensures var check := InMemoryCheck(if id in old(entries) then old(entries)[id].version else 0, expectedVersion, old(session.version));
              if check.Failure? then outcome == check.error else outcome == Written && session.version == check.value
    {
      if id !in entries {
        if GetOr(expectedVersion, 0) != 0 || session.version > 1 {
          return Conflict(GetOr(expectedVersion, session.version), 0);
        }
        session.version := 1;
        entries := entries[id := Entry(1, session.value, Expiry(ttl, now))];
        return Written;
      }
      var entry := entries[id];
      var expected := GetOr(expectedVersion, session.version);
      if expected != 0 && expected != entry.version {
        return Conflict(expected, entry.version);
      }
      session.version := entry.version + 1;
      entries := entries[id := Entry(session.version, session.value, if ttl.Some? then Expiry(ttl, now) else entry.expiresAt)];
      outcome := Written;
    }

    method Delete(id: string)
      modifies this
      ensures entries == old(entries) - {id}
    {
      entries := entries - {id};
    }
  }
}
