// The tool loop and the operation registry together: how often the body behind
// an idempotency key can run. A run interleaves what the workers do with what
// the registry does; a worker's claim is granted by that very registry.
module KeyedExecution {
  import opened Wrappers
  import opened AgentModel
  import Log = ReplayLedger
  import opened ReplayTheorems
  import Keys = Idempotency

  // A worker's own action, a claim of the key that one of its attempts makes
  // at the registry, or anything else that happens there.
  datatype Step<T> =
    | Act(worker: nat, e: Log.Event)
    | Ask(worker: nat, who: Log.Who, t: T)
    | Other(t: T)

  type Granting<!T> = (seq<T>, T) -> bool

  function Trace<T>(run: seq<Step<T>>): seq<T> {
    if run == [] then []
    else
      var last := run[|run| - 1];
      Trace(run[..|run| - 1]) + (if last.Act? then [] else [last.t])
  }

  // A worker's history: its actions, and a grant for each of its claims that
  // the registry granted.
  function LogOf<T>(run: seq<Step<T>>, worker: nat, key: string, grants: Granting<T>): seq<Log.Event> {
    if run == [] then []
    else
      var before := run[..|run| - 1];
      var last := run[|run| - 1];
      LogOf(before, worker, key, grants) +
      (if last.Act? && last.worker == worker then [last.e]
       else if last.Ask? && last.worker == worker && grants(Trace(before), last.t) then [Log.By(last.who, Log.Claimed(key))]
       else [])
  }

  // How often the registry granted the key, to whomever.
  function Granted<T>(trace: seq<T>, grants: Granting<T>): nat {
    if trace == [] then 0
    else
      var before := trace[..|trace| - 1];
      Granted(before, grants) + (if grants(before, trace[|trace| - 1]) then 1 else 0)
  }

  // Workers claim the key nowhere else.
  predicate ClaimsHere<T>(run: seq<Step<T>>, key: string) {
    forall i :: 0 <= i < |run| && run[i].Act? ==> !ClaimsKey(run[i].e, key)
  }

  function ClaimsOf<T>(run: seq<Step<T>>, workers: nat, key: string, grants: Granting<T>): nat {
    if workers == 0 then 0
    else ClaimsOf(run, workers - 1, key, grants) + Grants(LogOf(run, workers - 1, key, grants), key)
  }

  function StartsOf<T>(agents: seq<Agent>, run: seq<Step<T>>, workers: nat, key: string, grants: Granting<T>): nat
    requires workers <= |agents|
  {
    if workers == 0 then 0
    else
      StartsOf(agents, run, workers - 1, key, grants) +
      KeyedStarts(agents[workers - 1], LogOf(run, workers - 1, key, grants), key)
  }

  ghost predicate Runs<T>(agents: seq<Agent>, run: seq<Step<T>>, key: string, grants: Granting<T>) {
    && ClaimsHere(run, key)
    && forall w :: 0 <= w < |agents| ==> agents[w].registry && Log.Accepted(agents[w], LogOf(run, w, key, grants))
  }

  predicate GrantedLast<T>(run: seq<Step<T>>, grants: Granting<T>)
    requires run != []
  {
    run[|run| - 1].Ask? && grants(Trace(run[..|run| - 1]), run[|run| - 1].t)
  }

  lemma ClaimsStep<T>(run: seq<Step<T>>, worker: nat, key: string, grants: Granting<T>)
    requires run != [] && ClaimsHere(run, key)
    ensures Grants(LogOf(run, worker, key, grants), key) ==
            Grants(LogOf(run[..|run| - 1], worker, key, grants), key)
            + (if GrantedLast(run, grants) && run[|run| - 1].worker == worker then 1 else 0)
  {
    var before := run[..|run| - 1];
    var last := run[|run| - 1];
    var log := LogOf(before, worker, key, grants);
    if last.Act? && last.worker == worker {
      GrantsAppend(log, last.e, key);
    } else if last.Ask? && last.worker == worker && grants(Trace(before), last.t) {
      GrantsAppend(log, Log.By(last.who, Log.Claimed(key)), key);
    } else {
      assert LogOf(run, worker, key, grants) == log + [] == log;
    }
  }

  lemma GrantsAppend(log: seq<Log.Event>, e: Log.Event, key: string)
    ensures Grants(log + [e], key) == Grants(log, key) + (if ClaimsKey(e, key) then 1 else 0)
  {
    assert (log + [e])[..|log|] == log;
  }

  // What the last step adds to the claims of the first `workers` workers.
  function Share<T>(run: seq<Step<T>>, workers: nat, grants: Granting<T>): nat
    requires run != []
  {
    if GrantedLast(run, grants) && run[|run| - 1].worker < workers then 1 else 0
  }

  lemma OneMoreShare<T>(run: seq<Step<T>>, before: seq<Step<T>>, workers: nat, key: string, grants: Granting<T>)
    requires run != [] && before == run[..|run| - 1] && ClaimsHere(run, key) && workers > 0
    ensures Grants(LogOf(run, workers - 1, key, grants), key) + Share(run, workers - 1, grants) ==
            Grants(LogOf(before, workers - 1, key, grants), key) + Share(run, workers, grants)
  {
    ClaimsStep(run, workers - 1, key, grants);
    hide LogOf, Grants, ClaimsHere;
  }

  lemma {:induction false} SumStep<T>(run: seq<Step<T>>, before: seq<Step<T>>, workers: nat, key: string, grants: Granting<T>)
    requires run != [] && before == run[..|run| - 1] && ClaimsHere(run, key)
    ensures ClaimsOf(run, workers, key, grants) == ClaimsOf(before, workers, key, grants) + Share(run, workers, grants)
  {
    if workers > 0 {
      hide *;
      OneMoreWorker(run, workers, key, grants);
      OneMoreWorker(before, workers, key, grants);
      OneMoreShare(run, before, workers, key, grants);
      SumStep(run, before, workers - 1, key, grants);
    }
  }

  lemma OneMoreWorker<T>(run: seq<Step<T>>, workers: nat, key: string, grants: Granting<T>)
    requires workers > 0
    ensures ClaimsOf(run, workers, key, grants) ==
            ClaimsOf(run, workers - 1, key, grants) + Grants(LogOf(run, workers - 1, key, grants), key)
  {
  }

  lemma GrantedStep<T>(run: seq<Step<T>>, grants: Granting<T>)
    requires run != []
    ensures Granted(Trace(run), grants) >=
            Granted(Trace(run[..|run| - 1]), grants) + (if GrantedLast(run, grants) then 1 else 0)
  {
    var before := Trace(run[..|run| - 1]);
    if !run[|run| - 1].Act? {
      assert Trace(run)[..|Trace(run)| - 1] == before;
    } else {
      assert Trace(run) == before;
    }
  }

  // The grants the workers saw are grants of the registry, each seen once.
  lemma {:induction false} ClaimsAreGrants<T>(run: seq<Step<T>>, workers: nat, key: string, grants: Granting<T>)
    requires ClaimsHere(run, key)
    ensures ClaimsOf(run, workers, key, grants) <= Granted(Trace(run), grants)
  {
    if run == [] {
      NoClaims(run, workers, key, grants);
    } else {
      var before := run[..|run| - 1];
      assert ClaimsHere(before, key);
      assert Share(run, workers, grants) <= if GrantedLast(run, grants) then 1 else 0;
      hide *;
      ClaimsAreGrants(before, workers, key, grants);
      SumStep(run, before, workers, key, grants);
      GrantedStep(run, grants);
    }
  }

  lemma {:induction false} NoClaims<T>(run: seq<Step<T>>, workers: nat, key: string, grants: Granting<T>)
    requires run == []
    ensures ClaimsOf(run, workers, key, grants) == 0
  {
    if workers > 0 {
      NoClaims(run, workers - 1, key, grants);
    }
  }

  lemma {:induction false} StartsAreClaimed<T>(agents: seq<Agent>, run: seq<Step<T>>, workers: nat, key: string, grants: Granting<T>)
    requires workers <= |agents| && Runs(agents, run, key, grants)
    ensures StartsOf(agents, run, workers, key, grants) <= ClaimsOf(run, workers, key, grants)
  {
    if workers > 0 {
      StartsAreClaimed(agents, run, workers - 1, key, grants);
      var log := LogOf(run, workers - 1, key, grants);
      assert log[..|log|] == log;
      OneStartPerGrant(agents[workers - 1], log, key, |log|);
    }
  }

  lemma StartsAreGrants<T>(agents: seq<Agent>, run: seq<Step<T>>, key: string, grants: Granting<T>)
    requires Runs(agents, run, key, grants)
    ensures StartsOf(agents, run, |agents|, key, grants) <= Granted(Trace(run), grants)
  {
    StartsAreClaimed(agents, run, |agents|, key, grants);
    ClaimsAreGrants(run, |agents|, key, grants);
  }

  // ---------------------------------------------------------------------
  // The process-local registry
  // ---------------------------------------------------------------------

  function LocalGrant(storageKey: string): Granting<Keys.Call> {
    (before, call) => Keys.GrantsKey(Keys.AfterCalls(before), call, storageKey)
  }

  lemma {:induction false} LocalGranted(trace: seq<Keys.Call>, storageKey: string)
    ensures Granted(trace, LocalGrant(storageKey)) == Keys.KeyGrants(trace, storageKey)
  {
    if trace != [] {
      LocalGranted(trace[..|trace| - 1], storageKey);
    }
  }

  // Whatever any number of workers do that share the registry, with whatever
  // resumes and retries: a keyed non-read-only body is begun at most once.
  lemma KeyedBodyOnce(agents: seq<Agent>, run: seq<Step<Keys.Call>>, key: string, tenant: Option<string>)
    requires Runs(agents, run, key, LocalGrant(Keys.StorageKey(key, tenant)))
    ensures StartsOf(agents, run, |agents|, key, LocalGrant(Keys.StorageKey(key, tenant))) <= 1
  {
    var storageKey := Keys.StorageKey(key, tenant);
    StartsAreGrants(agents, run, key, LocalGrant(storageKey));
    LocalGranted(Trace(run), storageKey);
    Keys.LocalGrantsOnce(Trace(run), storageKey);
  }

  // ---------------------------------------------------------------------
  // The shared stores
  // ---------------------------------------------------------------------

  function SharedGrant(): Granting<Keys.Event> {
    (before, e: Keys.Event) => e.Granted?
  }

  lemma {:induction false} SharedGranted(trace: seq<Keys.Event>)
    ensures Granted(trace, SharedGrant()) == Keys.GrantCount(trace)
  {
    if trace != [] {
      SharedGranted(trace[..|trace| - 1]);
    }
  }

  // With a shared store n starts need n - 1 reservation lifetimes. The lifetime
  // is the ttl for Redis, and for PostgreSQL the ttl less the time the slowest
  // statement took to arrive; both are what the key's and the row's invariants
  // keep.
  lemma KeyedBodyOncePerLifetime(agents: seq<Agent>, run: seq<Step<Keys.Event>>, key: string, lifetime: Keys.Time)
    requires Runs(agents, run, key, SharedGrant())
    requires lifetime > 0.0 && Keys.WellGranted(Trace(run)) && Keys.KeptFor(Trace(run), lifetime)
    ensures var starts := StartsOf(agents, run, |agents|, key, SharedGrant());
            starts > 0 ==> Keys.Spans(Trace(run), starts - 1, lifetime)
  {
    StartsAreGrants(agents, run, key, SharedGrant());
    SharedGranted(Trace(run));
    hide *;
    Keys.SomeAreSpread(Trace(run), StartsOf(agents, run, |agents|, key, SharedGrant()), lifetime);
  }

  // Both stores keep what this needs.
  lemma StoresKeepIt(redis: Keys.RedisOperationKey, postgres: Keys.PostgresOperationRow)
    requires redis.Valid() && postgres.Valid()
    ensures Keys.WellGranted(redis.events) && Keys.KeptFor(redis.events, redis.ttl)
    ensures Keys.WellGranted(postgres.events) && Keys.KeptFor(postgres.events, postgres.ttl - postgres.slowest)
  {
  }
}
