// Versioned configuration: an append-only list per agent and kind, and the
// SQLite table that drops old versions after each store.
module ConfigStore {
  import opened Wrappers

  type Time = real

  datatype Record = Record(version: int, payload: string, createdAt: Time)

  datatype Error = InvalidConfig | NoSuchVersion

  type Outcome = Result<Record, Error>

  // What is accepted as a payload, and how long records are kept (None: for
  // ever).
  datatype Config = Config(valid: string -> bool, retention: Option<Time>)

  // Clock readings are taken before the store is locked, so they need not be
  // in order.
  datatype Op = Put(payload: string, now: Time) | Back(version: int, now: Time)

  // ---------------------------------------------------------------------
  // The list
  // ---------------------------------------------------------------------

  type Lineage = seq<Record>

  function Find(l: Lineage, version: int): Option<Record> {
    if l == [] then None
    else if l[|l| - 1].version == version then Some(l[|l| - 1])
    else Find(l[..|l| - 1], version)
  }

  function Appended(l: Lineage, payload: string, now: Time): Record {
    Record(|l| + 1, payload, now)
  }

  function ListNext(c: Config, l: Lineage, op: Op): (Lineage, Outcome) {
    match op
    case Put(payload, now) =>
      if c.valid(payload) then (l + [Appended(l, payload, now)], Success(Appended(l, payload, now)))
      else (l, Failure(InvalidConfig))
    case Back(version, now) =>
      match Find(l, version)
      case None => (l, Failure(NoSuchVersion))
      case Some(r) => (l + [Appended(l, r.payload, now)], Success(Appended(l, r.payload, now)))
  }

  // ---------------------------------------------------------------------
  // The table
  // ---------------------------------------------------------------------

  type Table = map<int, Record>

  // COALESCE(MAX(version), 0)
  ghost predicate IsNewest(t: Table, version: int) {
    if t == map[] then version == 0 else version in t && forall v :: v in t ==> v <= version
  }

  lemma SomeOf<T>(s: set<T>) returns (x: T)
    requires s != {}
    ensures x in s
  {
    x :| x in s;
  }

  lemma {:induction false} NewestExists(t: Table)
    ensures exists version :: IsNewest(t, version)
    decreases |t|
  {
    if |t| == 0 {
      assert IsNewest(t, 0);
    } else {
      assert |t.Keys| == |t|;
      var some := SomeOf(t.Keys);
      var others := t - {some};
      assert others.Keys == t.Keys - {some};
      assert |others.Keys| < |t.Keys| && |others| == |others.Keys| && |t| == |t.Keys|;
      NewestExists(others);
      var best :| IsNewest(others, best);
      var version := if others == map[] || best < some then some else best;
      forall v | v in t
        ensures v <= version
      {
        assert v == some || v in others;
      }
      assert IsNewest(t, version);
    }
  }

  ghost function Newest(t: Table): (version: int)
    ensures IsNewest(t, version)
  {
    NewestExists(t);
    var version :| IsNewest(t, version);
    version
  }

  function Purged(c: Config, t: Table, now: Time, newest: int): Table {
    match c.retention
    case None => t
    case Some(kept) => map v | v in t && (v == newest || t[v].createdAt >= now - kept) :: t[v]
  }

  ghost function Inserted(c: Config, t: Table, payload: string, now: Time): (Table, Outcome) {
    if !c.valid(payload) then (t, Failure(InvalidConfig))
    else
      var r := Record(Newest(t) + 1, payload, now);
      (Purged(c, t[r.version := r], now, r.version), Success(r))
  }

  ghost function TableNext(c: Config, t: Table, op: Op): (Table, Outcome) {
    match op
    case Put(payload, now) => Inserted(c, t, payload, now)
    case Back(version, now) =>
      if version in t then Inserted(c, t, t[version].payload, now) else (t, Failure(NoSuchVersion))
  }

  // ---------------------------------------------------------------------
  // What the table holds, said of the list
  // ---------------------------------------------------------------------

  // A version is kept unless some later version was stored after the retention
  // time was over.
  ghost predicate Retained(c: Config, l: Lineage, version: int) {
    && 1 <= version <= |l|
    && (c.retention.Some? ==>
          forall i :: version <= i < |l| ==> l[i].createdAt - c.retention.value <= l[version - 1].createdAt)
  }

  ghost function Kept(c: Config, l: Lineage): Table {
    map v | 1 <= v <= |l| && Retained(c, l, v) :: l[v - 1]
  }

  ghost predicate Sound(c: Config, l: Lineage) {
    forall i :: 0 <= i < |l| ==> l[i].version == i + 1 && c.valid(l[i].payload)
  }

  lemma {:induction false} FindExactly(c: Config, l: Lineage, version: int)
    requires Sound(c, l)
    ensures Find(l, version) == if 1 <= version <= |l| then Some(l[version - 1]) else None
  {
    if l != [] {
      FindExactly(c, l[..|l| - 1], version);
    }
  }

  lemma NewestIsRetained(c: Config, l: Lineage)
    ensures Newest(Kept(c, l)) == |l|
    ensures l != [] ==> |l| in Kept(c, l)
  {
    if l != [] {
      assert Retained(c, l, |l|);
      assert |l| in Kept(c, l);
      assert IsNewest(Kept(c, l), Newest(Kept(c, l)));
    } else {
      assert Kept(c, l) == map[];
    }
  }

  lemma InsertedKeeps(c: Config, l: Lineage, payload: string, now: Time)
    requires Sound(c, l) && c.valid(payload)
    ensures var r := Appended(l, payload, now);
            Inserted(c, Kept(c, l), payload, now) == (Kept(c, l + [r]), Success(r)) && Sound(c, l + [r])
  {
    NewestIsRetained(c, l);
    PurgedIsKept(c, l, Appended(l, payload, now));
    hide Kept, Purged;
  }

  lemma PurgedIsKept(c: Config, l: Lineage, r: Record)
    requires r.version == |l| + 1
    ensures Purged(c, Kept(c, l)[r.version := r], r.createdAt, r.version) == Kept(c, l + [r])
  {
    var l' := l + [r];
    forall v | 1 <= v <= |l|
      ensures Retained(c, l', v) <==> Retained(c, l, v) && (c.retention.Some? ==> r.createdAt - c.retention.value <= l[v - 1].createdAt)
    {
      RetainedStep(c, l, r, v);
    }
    assert Retained(c, l', |l'|);
    hide Retained;
    var before, after := Kept(c, l)[r.version := r], Kept(c, l');
    forall v | 1 <= v <= |l|
      ensures v in after <==> v in before && (c.retention.Some? ==> before[v].createdAt >= r.createdAt - c.retention.value)
    {
    }
  }

  lemma RetainedStep(c: Config, l: Lineage, r: Record, v: int)
    requires 1 <= v <= |l|
    ensures Retained(c, l + [r], v) <==>
            Retained(c, l, v) && (c.retention.Some? ==> r.createdAt - c.retention.value <= l[v - 1].createdAt)
  {
    var l' := l + [r];
    if c.retention.Some? {
      if Retained(c, l', v) {
        assert l'[|l'| - 1] == r;
        forall i | v <= i < |l|
          ensures l[i].createdAt - c.retention.value <= l[v - 1].createdAt
        {
          assert l'[i] == l[i];
        }
      }
    }
  }

  // ---------------------------------------------------------------------
  // Runs
  // ---------------------------------------------------------------------

  ghost function TableAfter(c: Config, ops: seq<Op>): Table {
    if ops == [] then map[] else TableNext(c, TableAfter(c, ops[..|ops| - 1]), ops[|ops| - 1]).0
  }

  ghost function TableOutcome(c: Config, ops: seq<Op>, i: nat): Outcome
    requires i < |ops|
  {
    TableNext(c, TableAfter(c, ops[..i]), ops[i]).1
  }

  function ListAfter(c: Config, ops: seq<Op>): Lineage {
    if ops == [] then [] else ListNext(c, ListAfter(c, ops[..|ops| - 1]), ops[|ops| - 1]).0
  }

  function ListOutcome(c: Config, ops: seq<Op>, i: nat): Outcome
    requires i < |ops|
  {
    ListNext(c, ListAfter(c, ops[..i]), ops[i]).1
  }

  // Everything the table ever stored, in order.
  ghost function Stored(c: Config, ops: seq<Op>): Lineage {
    if ops == [] then []
    else
      var before := ops[..|ops| - 1];
      match TableNext(c, TableAfter(c, before), ops[|ops| - 1]).1
      case Success(r) => Stored(c, before) + [r]
      case Failure(_) => Stored(c, before)
  }

  // After any calls the table is what retention leaves of everything it ever
  // stored: the i-th record stored got version i, so no number is used twice;
  // what is left still has its payload; the newest is always left.
  lemma {:induction false} TableIsKept(c: Config, ops: seq<Op>)
    ensures Sound(c, Stored(c, ops))
    ensures TableAfter(c, ops) == Kept(c, Stored(c, ops))
  {
    if ops != [] {
      var before := ops[..|ops| - 1];
      TableIsKept(c, before);
      var l := Stored(c, before);
      var op := ops[|ops| - 1];
      hide Kept, Sound, Inserted, Stored;
      StoredStep(c, ops);
      match op
      case Put(payload, now) =>
        if c.valid(payload) {
          InsertedKeeps(c, l, payload, now);
        } else {
          NotInserted(c, Kept(c, l), payload, now);
        }
      case Back(version, now) =>
        if version in Kept(c, l) {
          KeptPayload(c, l, version);
          InsertedKeeps(c, l, Kept(c, l)[version].payload, now);
        }
    } else {
      assert Kept(c, []) == map[];
    }
  }

  lemma StoredStep(c: Config, ops: seq<Op>)
    requires ops != []
    ensures var before := ops[..|ops| - 1];
            var outcome := TableNext(c, TableAfter(c, before), ops[|ops| - 1]).1;
            Stored(c, ops) == if outcome.Success? then Stored(c, before) + [outcome.value] else Stored(c, before)
  {
    hide TableNext, TableAfter;
  }

  lemma NotInserted(c: Config, t: Table, payload: string, now: Time)
    requires !c.valid(payload)
    ensures Inserted(c, t, payload, now) == (t, Failure(InvalidConfig))
  {
  }

  lemma KeptPayload(c: Config, l: Lineage, version: int)
    requires Sound(c, l) && version in Kept(c, l)
    ensures 1 <= version <= |l| && Kept(c, l)[version] == l[version - 1] && c.valid(l[version - 1].payload)
  {
  }

  // Nothing the run rolled back to had been dropped: it was still there, or
  // had never been stored.
  ghost predicate RollsBackToKept(c: Config, ops: seq<Op>) {
    forall i :: 0 <= i < |ops| && ops[i].Back? ==>
      ops[i].version in TableAfter(c, ops[..i]) || !(1 <= ops[i].version <= |Stored(c, ops[..i])|)
  }

  ghost predicate SameOutcomes(c: Config, ops: seq<Op>) {
    forall i :: 0 <= i < |ops| ==> TableOutcome(c, ops, i) == ListOutcome(c, ops, i)
  }

  lemma SameStep(c: Config, l: Lineage, op: Op)
    requires Sound(c, l)
    ensures TableNext(c, Kept(c, l), op).1 == ListNext(c, l, op).1
       <==> (op.Back? ==> op.version in Kept(c, l) || !(1 <= op.version <= |l|))
    ensures ListNext(c, l, op).0 ==
            if ListNext(c, l, op).1.Success? then l + [ListNext(c, l, op).1.value] else l
  {
    match op
    case Put(payload, now) =>
      hide Kept, Sound, Inserted, IsNewest;
      if c.valid(payload) {
        InsertedKeeps(c, l, payload, now);
      } else {
        NotInserted(c, Kept(c, l), payload, now);
      }
    case Back(version, now) =>
      FindExactly(c, l, version);
      if version in Kept(c, l) {
        KeptPayload(c, l, version);
        InsertedKeeps(c, l, Kept(c, l)[version].payload, now);
      }
  }

  lemma OneMoreSame(c: Config, ops: seq<Op>)
    requires ops != []
    ensures var n := |ops| - 1;
            SameOutcomes(c, ops) <==>
            SameOutcomes(c, ops[..n]) && TableNext(c, TableAfter(c, ops[..n]), ops[n]).1 == ListNext(c, ListAfter(c, ops[..n]), ops[n]).1
  {
    hide TableNext, ListNext, TableAfter, ListAfter;
    var before := ops[..|ops| - 1];
    forall i | 0 <= i < |before|
      ensures TableOutcome(c, before, i) == TableOutcome(c, ops, i) && ListOutcome(c, before, i) == ListOutcome(c, ops, i)
    {
      assert before[..i] == ops[..i];
    }
    if SameOutcomes(c, ops) {
      assert TableOutcome(c, ops, |before|) == ListOutcome(c, ops, |before|);
      forall i | 0 <= i < |before|
        ensures TableOutcome(c, before, i) == ListOutcome(c, before, i)
      {
        assert TableOutcome(c, ops, i) == ListOutcome(c, ops, i);
      }
    } else {
      var i: nat :| i < |ops| && TableOutcome(c, ops, i) != ListOutcome(c, ops, i);
      assert i < |before| ==> TableOutcome(c, before, i) != ListOutcome(c, before, i);
    }
  }

  lemma OneMoreKept(c: Config, ops: seq<Op>)
    requires ops != []
    ensures var n := |ops| - 1;
            RollsBackToKept(c, ops) <==>
            RollsBackToKept(c, ops[..n]) &&
            (ops[n].Back? ==> ops[n].version in TableAfter(c, ops[..n]) || !(1 <= ops[n].version <= |Stored(c, ops[..n])|))
  {
    hide TableAfter, Stored;
    var before := ops[..|ops| - 1];
    forall i | 0 <= i < |before|
      ensures before[..i] == ops[..i]
    {
    }
    assert RollsBackToKept(c, before) <==>
           forall i :: 0 <= i < |before| && ops[i].Back? ==>
             ops[i].version in TableAfter(c, ops[..i]) || !(1 <= ops[i].version <= |Stored(c, ops[..i])|);
  }

  lemma {:induction false} SameSoFar(c: Config, ops: seq<Op>)
    requires SameOutcomes(c, ops)
    ensures Stored(c, ops) == ListAfter(c, ops)
  {
    if ops != [] {
      var n := |ops| - 1;
      var before := ops[..n];
      OneMoreSame(c, ops);
      SameSoFar(c, before);
      TableIsKept(c, before);
      hide Kept, Sound, TableNext, ListNext;
      SameStep(c, Stored(c, before), ops[n]);
      StoredStep(c, ops);
    }
  }

  // The two stores answer a sequence of calls alike exactly when it rolls back
  // to no version that retention has dropped.
  lemma {:induction false} AgreeExactly(c: Config, ops: seq<Op>)
    ensures SameOutcomes(c, ops) <==> RollsBackToKept(c, ops)
  {
    if ops != [] {
      var n := |ops| - 1;
      var before := ops[..n];
      AgreeExactly(c, before);
      OneMoreSame(c, ops);
      OneMoreKept(c, ops);
      TableIsKept(c, before);
      hide Kept, Sound, TableNext, ListNext, SameOutcomes, RollsBackToKept, Stored;
      if SameOutcomes(c, before) {
        SameSoFar(c, before);
        SameStep(c, Stored(c, before), ops[n]);
      }
    }
  }

  // A version dropped by retention can be rolled back to in the list only.
  lemma RollbackToDropped(c: Config)
    requires c.retention == Some(5.0) && c.valid("a") && c.valid("b")
    ensures var ops := [Put("a", 0.0), Put("b", 10.0), Back(1, 11.0)];
            && TableOutcome(c, ops, 2) == Failure(NoSuchVersion)
            && ListOutcome(c, ops, 2) == Success(Record(3, "a", 11.0))
  {
    var ops := [Put("a", 0.0), Put("b", 10.0), Back(1, 11.0)];
    var one, two := ops[..1], ops[..2];
    assert one == [ops[0]] && one[..0] == [] && two[..1] == one && two[1] == ops[1];
    TableIsKept(c, []);
    NewestIsRetained(c, []);
    var first := [Record(1, "a", 0.0)];
    assert Stored(c, one) == first && ListAfter(c, one) == first;
    TableIsKept(c, one);
    NewestIsRetained(c, first);
    var both := first + [Record(2, "b", 10.0)];
    assert Stored(c, two) == both && ListAfter(c, two) == both;
    TableIsKept(c, two);
    assert !Retained(c, both, 1) by { assert both[1].createdAt == 10.0 && both[0].createdAt == 0.0; }
    FindExactly(c, both, 1);
  }

  lemma {:induction false} StoredGrows(c: Config, ops: seq<Op>, i: nat)
    requires i <= |ops|
    ensures Stored(c, ops[..i]) <= Stored(c, ops)
  {
    if i == |ops| {
      assert ops[..i] == ops;
    } else {
      assert ops[..|ops| - 1][..i] == ops[..i];
      StoredGrows(c, ops[..|ops| - 1], i);
    }
  }

  // A version read at any two times is the same record, and once dropped it
  // never comes back.
  lemma VersionsStand(c: Config, ops: seq<Op>, i: nat, version: int)
    requires i <= |ops| && 1 <= version <= |Stored(c, ops[..i])|
    ensures version in TableAfter(c, ops) ==>
              version in TableAfter(c, ops[..i]) && TableAfter(c, ops)[version] == TableAfter(c, ops[..i])[version]
  {
    StoredGrows(c, ops, i);
    TableIsKept(c, ops);
    TableIsKept(c, ops[..i]);
    var early, late := Stored(c, ops[..i]), Stored(c, ops);
    if Retained(c, late, version) {
      assert forall k :: 0 <= k < |early| ==> early[k] == late[k];
      assert Retained(c, early, version);
    }
  }

  // ---------------------------------------------------------------------
  // The stores
  // ---------------------------------------------------------------------

  datatype Key = Key(agent: string, kind: string)

  predicate KnownKind(kind: string) {
    kind == "definition" || kind == "overlay"
  }

  class InMemoryConfigStore {
    var history: map<Key, Lineage>
    const valid: (string, string) -> bool

    function ConfigOf(key: Key): Config {
      Config(payload => valid(key.kind, payload), None)
    }

    function Of(key: Key): Lineage
      reads this
    {
      if key in history then history[key] else []
    }

    ghost predicate Valid()
      reads this
    {
      forall key :: key in history ==> Sound(ConfigOf(key), history[key])
    }

    constructor (valid: (string, string) -> bool)
      ensures Valid() && history == map[] && this.valid == valid
    {
      this.valid, history := valid, map[];
    }

    method Store(agent: string, kind: string, payload: string, now: Time) returns (r: Outcome)
      requires Valid() && KnownKind(kind)
      modifies this
      ensures Valid()
      ensures var key := Key(agent, kind);
              if agent == "" then r == Failure(InvalidConfig) && history == old(history)
              else
                && (Of(key), r) == ListNext(ConfigOf(key), old(Of(key)), Put(payload, now))
                && forall other :: other != key ==> Of(other) == old(Of(other))
      ensures r.Success? <==> agent != "" && valid(kind, payload)
      ensures r.Success? ==>
                && r.value == Record(|old(Of(Key(agent, kind)))| + 1, payload, now)
                && Of(Key(agent, kind)) == old(Of(Key(agent, kind))) + [r.value]
      ensures r.Failure? ==> r.error == InvalidConfig && history == old(history)
    {
      var key := Key(agent, kind);
      if !valid(kind, payload) || agent == "" {
        return Failure(InvalidConfig);
      }
      var versions := Of(key);
      var record := Appended(versions, payload, now);
      history := history[key := versions + [record]];
      r := Success(record);
    }

    method Get(agent: string, kind: string, version: Option<int>) returns (r: Outcome)
      requires Valid()
      ensures var l := Of(Key(agent, kind));
              match version
              case None => r == if l == [] then Failure(NoSuchVersion) else Success(l[|l| - 1])
              case Some(v) => r == if 1 <= v <= |l| then Success(l[v - 1]) else Failure(NoSuchVersion)
    {
      var versions := Of(Key(agent, kind));
      if version.None? {
        return if versions == [] then Failure(NoSuchVersion) else Success(versions[|versions| - 1]);
      }
      for i := 0 to |versions|
        invariant forall j :: 0 <= j < i ==> versions[j].version != version.value
      {
        if versions[i].version == version.value {
          return Success(versions[i]);
        }
      }
      r := Failure(NoSuchVersion);
    }

    method Rollback(agent: string, kind: string, version: int, now: Time) returns (r: Outcome)
      requires Valid() && agent != "" && KnownKind(kind)
      modifies this
      ensures Valid()
      ensures var key := Key(agent, kind);
              && (Of(key), r) == ListNext(ConfigOf(key), old(Of(key)), Back(version, now))
              && forall other :: other != key ==> Of(other) == old(Of(other))
      ensures var l := old(Of(Key(agent, kind)));
              && (r.Success? <==> 1 <= version <= |l|)
              && (r.Success? ==> r.value == Record(|l| + 1, l[version - 1].payload, now) && Of(Key(agent, kind)) == l + [r.value])
              && (r.Failure? ==> r.error == NoSuchVersion && Of(Key(agent, kind)) == l)
    {
      FindExactly(ConfigOf(Key(agent, kind)), Of(Key(agent, kind)), version);
      var target := Get(agent, kind, Some(version));
      if target.Failure? {
        return target;
      }
      r := Store(agent, kind, target.value.payload, now);
    }
  }

  class SqliteConfigStore {
    var rows: map<Key, Table>
    const valid: (string, string) -> bool
    const retention: Option<Time>

    function ConfigOf(key: Key): Config {
      Config(payload => valid(key.kind, payload), retention)
    }

    function Of(key: Key): Table
      reads this
    {
      if key in rows then rows[key] else map[]
    }

    constructor (valid: (string, string) -> bool, retention: Option<Time>)
      requires retention.Some? ==> retention.value > 0.0
      ensures rows == map[] && this.valid == valid && this.retention == retention
    {
      this.valid, this.retention, rows := valid, retention, map[];
    }

    // The record has the next number, and with it the table holds what is not
    // older than the retention time.
    ghost predicate IsStored(t: Table, t': Table, r: Record, now: Time) {
      && r.createdAt == now
      && (if t == map[] then r.version == 1 else r.version - 1 in t && forall v :: v in t ==> v < r.version)
      && (forall v :: v in t' <==> v == r.version || (v in t && (retention.None? || t[v].createdAt >= now - retention.value)))
      && (forall v :: v in t' ==> t'[v] == if v == r.version then r else t[v])
    }

    method SelectNewest(key: Key) returns (version: int)
      ensures version == Newest(Of(key))
    {
      var t := Of(key);
      NewestExists(t);
      if t == map[] {
        version := 0;
      } else {
        version :| version in t && forall v :: v in t ==> v <= version;
      }
      assert IsNewest(t, version) && IsNewest(t, Newest(t));
    }

    // One transaction: number, insert, drop what is too old.
    method Store(agent: string, kind: string, payload: string, now: Time) returns (r: Outcome)
      modifies this
      ensures var key := Key(agent, kind);
              if agent == "" || !KnownKind(kind) then r == Failure(InvalidConfig) && rows == old(rows)
              else
                && (Of(key), r) == TableNext(ConfigOf(key), old(Of(key)), Put(payload, now))
                && forall other :: other != key ==> Of(other) == old(Of(other))
      ensures r.Success? <==> agent != "" && KnownKind(kind) && valid(kind, payload)
      ensures r.Success? ==> r.value.payload == payload && IsStored(old(Of(Key(agent, kind))), Of(Key(agent, kind)), r.value, now)
      ensures r.Failure? ==> r.error == InvalidConfig && rows == old(rows)
    {
      var key := Key(agent, kind);
      if agent == "" || !KnownKind(kind) || !valid(kind, payload) {
        return Failure(InvalidConfig);
      }
      var newest := SelectNewest(key);
      var record := Record(newest + 1, payload, now);
      var t := Of(key)[record.version := record];
      if retention.Some? {
        t := map v | v in t && (v == record.version || t[v].createdAt >= now - retention.value) :: t[v];
      }
      rows := rows[key := t];
      r := Success(record);
    }

    method Get(agent: string, kind: string, version: Option<int>) returns (r: Outcome)
      ensures var t := Of(Key(agent, kind));
              if agent == "" || !KnownKind(kind) then r == Failure(InvalidConfig)
              else
                match version
                case None => r == if t == map[] then Failure(NoSuchVersion) else Success(t[Newest(t)])
                case Some(v) => r == if v in t then Success(t[v]) else Failure(NoSuchVersion)
    {
      if agent == "" || !KnownKind(kind) {
        return Failure(InvalidConfig);
      }
      var t := Of(Key(agent, kind));
      if version.None? {
        if t == map[] {
          return Failure(NoSuchVersion);
        }
        var newest := SelectNewest(Key(agent, kind));
        return Success(t[newest]);
      }
      r := if version.value in t then Success(t[version.value]) else Failure(NoSuchVersion);
    }

    method Rollback(agent: string, kind: string, version: int, now: Time) returns (r: Outcome)
      modifies this
      ensures var key := Key(agent, kind);
              if agent == "" || !KnownKind(kind) then r == Failure(InvalidConfig) && rows == old(rows)
              else
                && (Of(key), r) == TableNext(ConfigOf(key), old(Of(key)), Back(version, now))
                && forall other :: other != key ==> Of(other) == old(Of(other))
      ensures r.Success? ==>
                && agent != "" && KnownKind(kind) && version in old(Of(Key(agent, kind)))
                && r.value.payload == old(Of(Key(agent, kind)))[version].payload
                && IsStored(old(Of(Key(agent, kind))), Of(Key(agent, kind)), r.value, now)
      ensures r.Failure? ==>
                && rows == old(rows)
                && (r.error == NoSuchVersion <==> agent != "" && KnownKind(kind) && version !in old(Of(Key(agent, kind))))
    {
      var target := Get(agent, kind, Some(version));
      if target.Failure? {
        return target;
      }
      r := Store(agent, kind, target.value.payload, now);
    }
  }
}
