# Verified model of the micro-agent platform

The platform runs tool-using agents: a runtime alternates model calls and tool
waves, with checkpoints, approval pauses, retries and idempotency keys; around
it stand an agent lifecycle, versioned session and configuration stores, and a
gateway that forwards requests under rate limits, breakers and bulkheads. This
project models that core in Dafny and proves what it promises over all inputs,
all interleavings and all runs.

Objects that the program updates in place are classes here, and each method is
proved against a function of the old state; what is promised over whole runs is
then proved about those functions. Arbitrary outcomes (the model, tool bodies,
policy verdicts, upstream answers, other workers, lost replies) are
nondeterministic values or uninterpreted functions. Time is a real number read
from one clock that does not run backwards; ids are fresh.

| file | contents |
|---|---|
| AgentModel | requests, transcripts, verdicts, checkpoints, approvals |
| ReplayLedger, ReplayTheorems | the protocol on the checkpoint and approval stores as a history of atomic actions by any number of overlapping attempts, its invariant, and what every history guarantees when it is cut off anywhere |
| ToolEffects | what approvals, keys and checkpoints protect, in terms of what the tools and the definition declare |
| CrashSafety | when resuming is safe: no side effect is repeated, and exactly which resume breaks that |
| Histories, Runtime, Turns | the invocation loop over its stores, other attempts and agents acting at every await, proved to produce only such histories; what an invocation's retries can do twice; what a finished turn stores |
| FailingRuns | runs of the runtime's own steps in which a property fails outside its exact condition |
| Lifecycle | the lifecycle monitor: locked regions as methods, all interleavings of any number of tasks |
| VersionedState | Redis, PostgreSQL and in-memory optimistic updates against one atomic compare-and-set |
| Idempotency, KeyedExecution | local, Redis and PostgreSQL registries of idempotency keys; composition with the tool loop |
| TokenBucket, GreedyBucket, ForgetfulBuckets, RateLimitStores | one ideal token bucket, that it refuses no call it could admit, stores that forget idle buckets, and the three limiters |
| SharedCircuit, Bulkhead | the Lua scripts of the shared breaker and of the leased bulkhead |
| GatewayForward | target selection and forwarding, with other requests running at every await |
| AnthropicWire, NextRequest | chat transcripts rewritten as Anthropic messages; whether the next request of a session has its calls answered |
| ConfigStore | the append-only configuration list and the SQLite table with retention |

## Where the code does less than its description

Each of these comes with the exact condition under which the code does what is
expected.

- A checkpoint is not removed when it is resumed
  (runtimes/adk/runtime.py:769-778). If the attempt that stored it still runs,
  a tool body can be begun by both; resuming is safe if and only if no attempt
  runs on the chain (ResumeExactly, InterleavingBreaks, EffectRepeated).
- A continuation after an approval subtracts the history tail its session has
  at that time (runtimes/adk/runtime.py:858-860, 899-948, 1116). The stored turn
  is right if and only if that tail is as long as the one of the history at the
  fresh request which opened the conversation; a session that grew since loses
  the first messages of the turn, one that shrank gets the last messages of the
  old history once more in front of it (ContinuationStoresItsTurn,
  StoredOtherwise, PauseAcrossHistories).
- An attempt is retried although it has stored its turn, if only a later step
  failed, retryably (runtimes/adk/runtime.py:1111-1142, 652-715): the session
  then gets the turn twice. It is stored once if and only if no attempt stored
  it and failed afterwards (TurnStoredOnceExactly, LastStoresExactly,
  TurnStoredTwice).
- A continuation that pauses again stores the pause under the same id
  (runtimes/adk/runtime.py:1050). If that store takes effect but fails
  retryably, and no tool was attempted, the retry consumes the new pause with
  the old decision. A decision is applied to one pause only if and only if no
  retry finds a pause stored since its first consumption (DecidesOnceExactly,
  PendingAgainExactly, SecondPauseDecided).
- Approval replay drops the call id of tool messages
  (runtimes/adk/runtime.py:941-948); the Anthropic conversion then answers with
  the tool's name, which matches if and only if that is the call's id
  (LoopTurnsAnswered).
- The next request quotes the last twenty messages, wherever they start, and
  turns that the iteration limit cut; its calls are all answered if and only if
  neither the start falls inside a group nor such a turn is among them
  (NextRequestComplete).
- A Redis session update whose time to live is over by the client's clock when
  it queues its commands deletes the session and returns normally
  (LapsedUpdateRemoves). A lost race leaves the caller's object a version ahead
  of its snapshot. A second call with that object is accepted if and only if it
  reads exactly that version, which may be the winner's or that of a record
  created since (RetrySameObject, RetryHitsAnotherIncarnation).
- The in-memory session provider is not the same compare-and-set: a deleted
  record can be revived by a version-1 snapshot (InMemoryCheckAgrees).
- The Redis registry checks the owner and writes in two commands: a late result
  overwrites a newer claimant if and only if somebody wrote between them
  (RecordResult, TakenOver, LateWorkerRun).
- The docstring of the PostgreSQL registry says that a result arriving after
  the reservation expired is ignored; it is stored if and only if the row is
  still the worker's (PostgresOperationRow.RecordResult,
  LateResultRevives). Its reservations count from the start of the
  claim: one that takes the whole lifetime grants the key twice at one instant
  (SlowClaimRun).
- The HTTP rate limiter's window bound needs idle_seconds * rate >= capacity,
  which its constructor does not require (ForgettingExactly); under the same
  condition, and no other, refused calls change no later answer
  (RefusalsFreeExactly). Its rounded retry advice falls short of the time needed
  in a window of one millisecond (RoundedAdvice).
- The local registry's storage keys keep tenants apart if neither keys nor
  tenants contain the separator (StorageKeysDiffer, StorageKeysCollide).
- SQLite cannot roll back to a version that retention dropped, the in-memory
  list can (AgreeExactly, RollbackToDropped).
- A retried attempt that pauses for approval raises the pause as an exception
  instead of reporting it: Invoke ends in PauseRaised after more than one
  attempt and in ApprovalRequired after exactly one
  (runtimes/adk/runtime.py:698-702). The continuation is stored all the same.

## Model

| member | source | states |
|---|---|---|
| CrashSafety.CrashSafeReplay | runtimes/adk/runtime.py:950-1109 | For any number of overlapping attempts, at every point where a crash cuts any history: everything stored that this agent can resume lists exactly the non-read-only bodies its chain of resumes has begun, and nothing else can resume that chain, if no checkpoint was ever resumed beside an attempt still running on its chain |
| CrashSafety.ResumeExactly | runtimes/adk/runtime.py:769-778 | After such a history, resuming a checkpoint keeps every record safe in all further histories without another such resume, if and only if no attempt still runs on its chain. Given: some tool with an effect may run without a key, and attempts that still run on the chain have an iteration to spare |
| CrashSafety.InterleavingBreaks | runtimes/adk/runtime.py:950-968 | The failing history: the first attempt goes on to a tool while the second saves the transcript it resumed, so the stored record misses a body begun |
| CrashSafety.ExclusiveIsCovered | runtimes/adk/runtime.py:950-1109 | The invariant behind it: whoever could go on with a chain, running or stored, accounts for every body begun for it |
| CrashSafety.StepCovers | runtimes/adk/runtime.py:1067-1109 | Every action except a resume beside a running attempt keeps that invariant |
| ReplayLedger.AcceptedIsKept | runtimes/adk/runtime.py:769-1109 | What every history keeps however its attempts overlap: this agent's records are complete for their view, every other record is another agent's, counts within the limit, tails, unused grants cover starts |
| ReplayLedger.StepKeeps | runtimes/adk/runtime.py:769-1109 | Every action that an attempt may take by what it knows itself keeps this, and so does everything other agents do |
| ReplayTheorems.IterationsBounded | runtimes/adk/runtime.py:970-1062 | Along any chain of pauses and resumes, overlapping or not, the recorded count never exceeds max_iterations, and every record of this agent has a strictly smaller one |
| ReplayTheorems.AttemptTerminates | runtimes/adk/runtime.py:970-1040 | One attempt calls the model at most max_iterations times, whatever it was resumed from |
| ReplayTheorems.ApprovalGate | runtimes/adk/runtime.py:893-918 | Every gated tool body that is begun is a request of a pending approval of the same agent that a pause stored, that nothing touched since, and that this attempt consumed with approve; records of other agents share the stores |
| ReplayTheorems.GatedStart | runtimes/adk/runtime.py:1194-1219 | A gated body is begun only while an approval is being replayed, and at the position its request has in the approved wave, so later waves pause again |
| ReplayTheorems.ConsumedAtMostOnce | runtimes/adk/runtime.py:781-790 | Each continuation id is consumed at most as often as a pause stored it, however many callers try, and not while it is still stored |
| ReplayTheorems.ApprovedOnce | runtimes/adk/runtime.py:893-918 | Within one attempt the positions of gated bodies strictly grow, so each approved request is begun at most once per consumption |
| ReplayTheorems.ChainTail | runtimes/adk/runtime.py:855-861 | The history tail a chain's transcripts are built on is that of the session at the fresh request which opened the chain, whatever was resumed since |
| ReplayTheorems.OneStartPerGrant | runtimes/adk/runtime.py:1380-1428 | With a registry, at every point of every history a keyed non-read-only body has been begun at most once per grant of its key |
| ReplayTheorems.KeyedCounts | runtimes/adk/runtime.py:1380-1428 | The grants and starts the invariant counts are those of the history |
| ToolEffects.UnmarkedNeedsApproval | runtimes/adk/runtime.py:1200-1219 | Where the policy asks for an approval, a tool that neither the definition's declaration nor, without one, its metadata marks read-only is begun only as a request of a stored pause that the attempt consumed with approve |
| ToolEffects.UnmarkedOncePerGrant | runtimes/adk/runtime.py:1380-1404 | With a registry such a tool's body is begun under a key at most once per grant of the key, at every point of every history |
| ToolEffects.UnmarkedIsRecorded | runtimes/adk/runtime.py:1067-1072 | Once such a body has begun, every record that could resume its chain lists a result for it, wherever a crash comes, if no checkpoint is resumed beside a running attempt |
| ToolEffects.ScreenExactly | runtimes/adk/runtime.py:1303-1378 | Which requests pass the checks, and which check refuses each of the others, in terms of declaration, metadata, arguments and policy; the declaration wins over the metadata, and anything unrecognised is unsafe |
| ToolEffects.PausesExactly | runtimes/adk/runtime.py:1193-1219 | A wave pauses if and only if it holds a known tool that is not marked read-only, that the policy allows and wants an approval for |
| ToolEffects.ReplaySafeExactly | runtimes/adk/runtime.py:1175-1191 | A wave may run beside a stored checkpoint if and only if every known tool in it is marked read-only |
| Runtime.WaitForRetry | runtimes/adk/runtime.py:86-108 | The wait succeeds exactly when every budget that is set is open and covers the delay; it sleeps the delay, or on failure at most what the tightest budget leaves |
| Runtime.BackoffTotal | runtimes/adk/runtime.py:684-696 | The planned delays before k retries add up to base * (2^k - 1) |
| Runtime.AdkRuntime.ExecuteTools | runtimes/adk/runtime.py:1284-1506 | One wave, others acting in between: on success one result per request, in order, and the non-read-only results are exactly the bodies begun; refused while the attempt's own checkpoint may be stored unless the wave is replay-safe; an empty attempted list means no effect was begun, also on failure; the results say, in order, what the bodies returned, what the registry told, and why the checks refused |
| Runtime.AdkRuntime.ExecuteOne | runtimes/adk/runtime.py:1297-1428 | One request: screened by validation, policy, side-effect policy and registry before its body; the result is the refusal they end in, or says what the tool returned or the registry told |
| Runtime.AdkRuntime.ExecutePermitted | runtimes/adk/runtime.py:1380-1506 | A request that passed: claimed first if it may have an effect, deduplicated with what the registry told or executed once, and its result published |
| Runtime.AdkRuntime.RunBody | runtimes/adk/runtime.py:1430-1485 | The body is begun exactly once, as the only action of the attempt, noted as attempted before it runs, and a lost publication of its result suppresses retries |
| Runtime.AdkRuntime.SaveCheckpoint | runtimes/adk/runtime.py:950-968 | The stored record is the invocation's whole state; a save that fails may or may not have landed |
| Runtime.AdkRuntime.DeleteCheckpoint | runtimes/adk/runtime.py:1067-1072 | On success the record is gone; on failure it is gone or untouched |
| Runtime.AdkRuntime.StoreApproval | runtimes/adk/runtime.py:1049-1065 | The pause stores the wave, transcript, results and count, drops the checkpoint, and ends the attempt, in one step |
| Runtime.AdkRuntime.ConsumeApproval | runtimes/adk/runtime.py:781-797 | Get and delete as one step: an unknown, expired or foreign continuation fails, and a foreign one stays unless it has expired; otherwise exactly this approval is removed and its state restored; when the store fails the approval may be gone, without an attempt begun |
| Runtime.AdkRuntime.TakeApproval | runtimes/adk/runtime.py:781-797 | The consumption itself: the approval leaves the store and its attempt begins with what it held |
| Runtime.AdkRuntime.TakeCheckpoint | runtimes/adk/runtime.py:769-797 | A resume begins with what the stored record holds, and leaves it stored |
| Runtime.AdkRuntime.ReadSession | runtimes/adk/runtime.py:817-851 | What an attempt under way reads is what the store holds at that event; a continuation's tail becomes that of the history read |
| Runtime.AdkRuntime.RestoreCheckpoint | runtimes/adk/runtime.py:769-797 | Success means a stored checkpoint of the same agent and no input beside it, whose recorded state is restored with room for one more iteration; each refusal has its reason, and no failure leaves a trace |
| Runtime.AdkRuntime.StartFresh | runtimes/adk/runtime.py:853-861 | System prompt, last 20 messages of history, input: a well-shaped transcript on a new chain that no record can resume |
| Runtime.AdkRuntime.ReplayWave | runtimes/adk/runtime.py:893-948 | The approved wave is executed, or denied, answering every dangling call of the paused transcript in order with its result's text and without its id |
| Runtime.AdkRuntime.CallModel | runtimes/adk/runtime.py:971-1039 | The model is called with the whole state recorded, if checkpoints are kept; one call uses one iteration and appends exactly its reply; calls without an id get one and nothing else of them changes |
| Runtime.AdkRuntime.RunWave | runtimes/adk/runtime.py:1067-1091 | A wave that is not replay-safe runs only after the checkpoint is deleted, and leaves one result, saying what happened, and one tool message with its text for every call |
| Runtime.AdkRuntime.RunLoop | runtimes/adk/runtime.py:970-1109 | The model/tool loop terminates with measure max_iterations - iterations; it ends completed, paused with the exact approval stored, or failed, effects noted |
| Runtime.AdkRuntime.Iterate | runtimes/adk/runtime.py:970-1109 | One round: a model call, then an end, a pause, or a wave that needs no approval and a new checkpoint of the whole state |
| Runtime.AdkRuntime.AnswerWave | runtimes/adk/runtime.py:893-930 | A denied wave gets one denial per call and begins nothing, an approved one its results |
| Runtime.AdkRuntime.Conclude | runtimes/adk/runtime.py:1111-1142 | A reported completion has stored old history ++ messages[1 + tail..] under the version loaded, and then dropped the checkpoint |
| Runtime.AdkRuntime.InvokeInner | runtimes/adk/runtime.py:738-1168 | One attempt of any kind (fresh, checkpoint resume, continuation), other attempts and agents acting at every await, keeps all invariants; a completion has left in the session the messages it held when the attempt read it followed by messages[1 + tail..], one version up from what it read, answers with the last message's text, and stored the turn since the history its chain was opened on if and only if the tail subtracted has that history's length; a pause states the approval stored; and it fails only if an await or a tool did, the request is refused for its own reasons, or the session changed since it was read |
| Runtime.AdkRuntime.Retries | runtimes/adk/runtime.py:680-716 | Retries stop as soon as an attempt began an effect; their number and planned delays are bounded by the semantics; each attempt begins at most once, as the request asks for, and stores at most one turn |
| Runtime.AdkRuntime.Invoke | runtimes/adk/runtime.py:573-735 | Whichever awaits on stores, model and registry fail, by the deadline or with an error of their own, retryable or not, with or without their effect: at most one attempt begins non-read-only bodies and it is the last; an error that is not known to be final is tried again until 1 + retry_max_attempts attempts are used, unless time is up, an effect was attempted, output was streamed, or the policy is another, and a final one never is; delays base * 2^k; a response stands for a conversation begun for this request, concluded, and left in its session; the turn is stored once, and a decision applied to one pause, exactly under the conditions of the next rows |
| Histories.TurnStoredOnceExactly | runtimes/adk/runtime.py:1111-1142 | An invocation stores its turn at most once if and only if at most one of its attempts stored it: an attempt that fails after storing, and is retried, does not count as done |
| Histories.LastStoresExactly | runtimes/adk/runtime.py:1111-1142 | An invocation whose last attempt stored the turn has stored it once if and only if no retried attempt had stored it before failing |
| Histories.DecidesOnceExactly | runtimes/adk/runtime.py:781-790 | Every attempt of a continuation consumes its id with the caller's decision, and the invocation applies the decision to one stored pause only if and only if no attempt begins after an earlier one consumed the approval and a pause was stored under the id again |
| Histories.PendingAgainExactly | runtimes/adk/runtime.py:1049-1065 | The guard a retry meets: after a consumption the id is pending again if and only if a pause was stored under it since and nothing has touched it |
| Histories.ConsumedAgain | runtimes/adk/runtime.py:781-790 | What is consumed by a second consumption of an id was stored by a pause between the two |
| FailingRuns.TurnStoredTwice | runtimes/adk/runtime.py:1111-1142 | The failing run through the runtime's steps: stored, failed afterwards, retried on the session as it is now; the session holds the exchange twice |
| FailingRuns.SecondPauseDecided | runtimes/adk/runtime.py:1049-1065 | The failing run through the runtime's steps: approved, deduplicated without a body, paused again under the same id with the reply lost, retried; the gated body of the second pause is begun on the decision made for the first |
| FailingRuns.EffectRepeated | runtimes/adk/runtime.py:950-968 | The failing run of an overlapping resume through the runtime's steps: at the crash a record misses a body begun, and resuming it begins the same body on the chain a second time |
| Turns.TurnShape | runtimes/adk/runtime.py:1017-1047 | A finished turn has no system prompt and every assistant message with n calls is followed by exactly its n answers under the same names, except a last one cut by max_iterations |
| Turns.UnapprovedStoresItsTurn | runtimes/adk/runtime.py:1111-1120 | A conversation that went through no approval stores history ++ its turn, however often it was resumed and whatever happened to the session |
| Turns.ContinuationStoresItsTurn | runtimes/adk/runtime.py:1111-1120 | A continuation does so if and only if the tail of the history it loaded is as long as the tail of the history at the fresh request that opened its chain |
| Turns.StoredOtherwise | runtimes/adk/runtime.py:1111-1120 | What is stored otherwise: with a longer tail the turn without as many first messages, with a shorter one the last messages of the old history again in front of it |
| Turns.PauseAcrossHistories | runtimes/adk/runtime.py:899-948 | For any two histories, before and after a pause, there is an accepted run that ends, and it stores its turn if and only if their tails are equally long |
| Lifecycle.StepKeepsInv | micro_agent/core/default_agent.py:76-225 | Every locked region and every action between regions keeps the monitor's invariant, for any number of invokers and stoppers |
| Lifecycle.Reachable | micro_agent/core/default_agent.py:76-225 | Hence every state any interleaving reaches satisfies it |
| Lifecycle.CapacityAndNoLostWakeup | micro_agent/core/default_agent.py:105-134 | active <= max_concurrency; the idle event is set exactly when active = 0; un-notified waiters exist only while the agent is full |
| Lifecycle.ReadyEnteredOnce | micro_agent/core/default_agent.py:83-103 | READY is entered at most once in any run |
| Lifecycle.NothingAdmittedAfterReady | micro_agent/core/default_agent.py:105-171 | After READY is left nothing is admitted, streams included |
| Lifecycle.RuntimeStoppedWhenDrained | micro_agent/core/default_agent.py:173-225 | Whenever some stopper is inside the runtime's stop, no admitted invocation is running |
| Lifecycle.OneRuntimeStopPerEpisode | micro_agent/core/default_agent.py:173-210 | Two calls of the runtime's stop are separated by a new STOPPING episode |
| Lifecycle.AdmittedExactly | micro_agent/core/default_agent.py:105-125 | In every reachable state whoever enters or wakes up runs afterwards if and only if the agent is READY with a place free and the input is valid, and waits if and only if there is no place and the policy does not reject |
| Lifecycle.RunningGotIn | micro_agent/core/default_agent.py:105-134 | Whatever runs got in by its own admission, in READY, with a place free, on valid input, and has not left since |
| Lifecycle.CanBecomeReady | micro_agent/core/default_agent.py:76-103 | Initialisation and start lead a new agent to READY |
| Lifecycle.StopBegins | micro_agent/core/default_agent.py:173-187 | A stop begins a shutdown from every state but CREATED, STOPPED and STOPPING, joins one that is under way, and cuts nothing off that runs |
| Lifecycle.StopCompletes | micro_agent/core/default_agent.py:189-210 | From every reachable STOPPING state the invocations leaving and the owner going on lead to STOPPED, where waiting stoppers are released |
| Lifecycle.DefaultMicroAgent.Admit | micro_agent/core/default_agent.py:105-125 | Admitted if and only if the agent is below its limit, READY, and the input valid; at the limit it waits or is turned away as the policy says, otherwise the first of state and input that fails refuses it; exactly an admission changes counter, tasks and idle event |
| Lifecycle.DefaultMicroAgent.Leave | micro_agent/core/default_agent.py:127-134 | The leaving region likewise: counter, task set, idle event when the last one leaves, every waiter notified |
| Lifecycle.DefaultMicroAgent.BeginStop | micro_agent/core/default_agent.py:173-190 | First stopper of an episode drains, later ones wait for it, a stopped agent returns |
| Lifecycle.DefaultMicroAgent.EndStop | micro_agent/core/default_agent.py:191-210 | STOPPED when the runtime's stop succeeded, ERROR when it failed; stoppers that wait are released either way |
| Lifecycle.DefaultMicroAgent.Initialize | micro_agent/core/default_agent.py:76-81 | Initialisation as the corresponding step |
| Lifecycle.DefaultMicroAgent.Start | micro_agent/core/default_agent.py:83-103 | READY only when the runtime supports and starts the agent |
| VersionedState.NoLostUpdate | micro_agent/session/redis.py:233-323 | Of all updates made from one version at most one succeeds until the key is created or removed |
| VersionedState.VersionsClimb | micro_agent/session/redis.py:233-323 | Every update in between moved the version by exactly one |
| VersionedState.RedisSession.TryOnce | micro_agent/session/redis.py:254-313 | One WATCH/GET/MULTI/EXEC pass with writers in between: written means exactly one own change, conflict and lost race mean none, a lost reply means at most one |
| VersionedState.RedisSession.Update | micro_agent/session/redis.py:233-323 | The three-attempt loop refines one atomic compare-and-set: a normal return is exactly one change taking the expected version v >= 1 to v + 1, with the content and the new or inherited expiry, or to no record if that expiry lies behind when the commands are queued; a conflict is none, and reports a different version that was read, or three changes by others; only a lost command or reply leaves the outcome open |
| VersionedState.RedisSession.Create | micro_agent/session/redis.py:192-208 | Creation writes version 1 with its expiry over whatever was there, or removes it if that expiry lies behind |
| VersionedState.RedisSession.Remove | micro_agent/session/redis.py:165-170 | Removal ends the incarnation |
| VersionedState.LapsedUpdateRemoves | micro_agent/session/redis.py:99-110 | What an update writes is no record if and only if the new or inherited expiry lay behind by the client's clock when the commands were queued; otherwise the key is kept for whole seconds that cover the rest |
| VersionedState.RedisSession.RetrySameObject | micro_agent/session/redis.py:265-323 | A second call with the same object after a conflict: it expects the snapshot's version, or the one after it if the first call lost a race, and is accepted exactly where it reads that version, as the only own change and a compare-and-set of it; otherwise it reports the different version it read, or further lost races |
| VersionedState.RedisSession.RetryHitsAnotherIncarnation | micro_agent/session/redis.py:265-323 | Such a run through the commands: snapshot at version 1, a race lost against a removal, a conflict, and the second call replaces version 2 of a record that others created and updated since |
| VersionedState.RedisSession.Prepare | micro_agent/session/redis.py:243-294 | The check, which moves the caller's object to the version about to be written before the transaction is known to take effect |
| VersionedState.RedisSession.Exec | micro_agent/session/redis.py:295-312 | The queued write takes effect exactly if nothing changed the key since it was watched |
| VersionedState.PostgresRow.GuardedUpdate | micro_agent/session/postgres.py:205-225 | The guarded UPDATE changes the row exactly when its version is the one read; without a new expiry the session statement keeps the row's and the memory statement clears it |
| VersionedState.PostgresRow.GuardedWrite | micro_agent/memory/postgres.py:105-165 | Read, check, guarded write refines one atomic compare-and-set for expected versions >= 1, with writers in between; a conflict reports the version read, which fails the check or was changed before the write; the expiry left is the one the statement at hand says |
| VersionedState.PostgresRow.UpdateSession | micro_agent/session/postgres.py:163-225 | The same for the session provider, whose writes keep the expiry when none is given; a conflict leaves the caller's object as it was |
| VersionedState.PostgresRow.StoreEntry | micro_agent/memory/postgres.py:105-165 | The same for the memory provider, whose writes assign the expiry of the policy, also when it has none |
| VersionedState.PostgresRow.Create | micro_agent/session/postgres.py:103-127 | An existing row keeps its version and content |
| VersionedState.PostgresRow.Delete | micro_agent/session/postgres.py:227-233 | Deletion ends the incarnation |
| VersionedState.InMemoryCheckAgrees | micro_agent/session/session.py:167-206 | The in-memory provider decides like the shared ones if and only if the record exists, or the caller relies on its session's version and that is not 1, or it names a version other than 0 or holds a snapshot of at most version 1 |
| VersionedState.InMemorySessions.Update | micro_agent/session/session.py:167-206 | The dict entry is written, one version up and with its new, inherited or default expiry, exactly unless the named or held version is neither 0 nor the entry's, or, without an entry, a version other than 0 is named or the snapshot is past version 1; a conflict changes nothing |
| VersionedState.InMemorySessions.Get | micro_agent/session/session.py:158-165 | A read returns the live entry and drops an expired one |
| VersionedState.InMemorySessions.Create | micro_agent/session/session.py:135-156 | Creation starts over at version 1 |
| VersionedState.InMemorySessions.Delete | micro_agent/session/session.py:208-211 | Deletion removes this entry only |
| Idempotency.LocalGrantsOnce | micro_agent/security/side_effects.py:70-98 | Over every sequence of claims and records by any number of workers the local registry grants each key at most once ever |
| Idempotency.OperationRegistry.ClaimOperation | micro_agent/security/side_effects.py:70-90 | A claim is granted exactly when the key is neither completed nor in progress, otherwise the completed result or the holder is reported |
| Idempotency.OperationRegistry.RecordResult | micro_agent/security/side_effects.py:92-98 | Recording completes the key and ends its reservation |
| Idempotency.OperationRegistry.Find | micro_agent/security/side_effects.py:100-104 | A lookup finds exactly the completed keys |
| Idempotency.CompletedIsLatest | micro_agent/security/side_effects.py:92-104 | After any calls the result found under a key is the one recorded last |
| Idempotency.InProgressIsFirst | micro_agent/security/side_effects.py:70-90 | While nothing was recorded under it a key is reported in progress for the operation that asked first |
| Idempotency.UnaskedIsFree | micro_agent/security/side_effects.py:70-90 | A key nobody asked for or recorded is free |
| Idempotency.StorageKeysDiffer | micro_agent/security/side_effects.py:65-68 | Keys and tenants that do not contain the separator share a storage key only if they are the same |
| Idempotency.StorageKeysCollide | micro_agent/security/side_effects.py:65-68 | With the separator in a key two tenants can share a storage key |
| Idempotency.AtMostOneHolder | micro_agent/security/redis_operations.py:108-140 | However many claims interleave, at every instant at most one grant is in force, each from its grant until the entry last written before the next one runs out |
| Idempotency.HeldExactly | micro_agent/memory/postgres.py:357-403 | The key's entry is unexpired exactly while some grant is in force |
| Idempotency.GrantsAreSpread | micro_agent/security/redis_operations.py:108-140 | n grants of one key take at least n - 1 of the shortest lifetime any write gave the entry |
| Idempotency.RedisOperationKey.Claim | micro_agent/security/redis_operations.py:108-140 | Two SET NX attempts with other workers in between: granted means exactly one own grant over an expired entry, refused means none and that the key was met in the hands of an entry outliving the start of the call |
| Idempotency.RedisOperationKey.RecordResult | micro_agent/security/redis_operations.py:154-168 | A result is published if and only if the GET saw the worker's own unexpired entry, and then the SET overwrites another worker's entry if and only if somebody wrote between GET and SET |
| Idempotency.TakenOver | micro_agent/security/redis_operations.py:154-168 | Such a write in between means that the entry read had run out and was granted anew, or that another late worker wrote |
| Idempotency.RedisOperationKey.LateWorkerRun | micro_agent/security/redis_operations.py:154-168 | The failing run through the commands: read, stall for the lifetime, another worker is granted, the late one writes |
| Idempotency.RedisOperationKey.BeginRecord | micro_agent/security/redis_operations.py:165-167 | The GET of a record: whether the key is still this worker's |
| Idempotency.RedisOperationKey.FinishRecord | micro_agent/security/redis_operations.py:168-168 | The SET of a record, by a worker that had found the key its own, whoever owns it now |
| Idempotency.RedisOperationKey.Publish | micro_agent/security/redis_operations.py:165-168 | What the SET hits after others had their turn |
| Idempotency.PostgresOperationRow.Claim | micro_agent/memory/postgres.py:357-403 | INSERT, then reclaim of an expired row: granted means exactly one own grant with a lifetime counted from the start of the call, refused means none and that an unexpired row was met |
| Idempotency.PostgresOperationRow.RecordResult | micro_agent/memory/postgres.py:425-448 | The single UPDATE publishes exactly once as the row's owner, and not at all only if the row was another's or absent |
| Idempotency.LatestClaimantPublishes | micro_agent/memory/postgres.py:425-448 | Every result ever published was published by the latest claimant, so a late worker never overwrites a newer one |
| Idempotency.PostgresOperationRow.LateResultRevives | micro_agent/memory/postgres.py:425-448 | The run through the statements: a result that comes after the reservation ran out is stored, and revives the entry, while nobody has reclaimed the row |
| Idempotency.PostgresOperationRow.SlowClaimRun | micro_agent/memory/postgres.py:370-399 | The run through the statements of two claims: the second is granted the key at the same instant if and only if the first took its whole lifetime to reach its statement |
| KeyedExecution.KeyedBodyOnce | runtimes/adk/runtime.py:1380-1428 | Whatever the workers of a tenant do that share a local registry, a keyed non-read-only body is begun at most once ever; each grant a worker saw is one the registry gave |
| KeyedExecution.KeyedBodyOncePerLifetime | runtimes/adk/runtime.py:1380-1428 | With a shared store n such starts need n - 1 lifetimes: the ttl for Redis, for PostgreSQL the ttl less what the slowest statement took |
| KeyedExecution.ClaimsAreGrants | runtimes/adk/runtime.py:1380-1404 | The grants all workers' histories contain number at most those of the registry's own history |
| KeyedExecution.StoresKeepIt | micro_agent/memory/postgres.py:357-448 | The invariants of the Redis key and the PostgreSQL row are what that bound needs |
| TokenBucket.Paid | micro_agent/interoperability/http_api.py:240-250 | Over every sequence of calls, a key's admissions plus the tokens left at the end are at most the tokens at the start plus rate * time |
| TokenBucket.StepInRange | micro_agent/interoperability/http_api.py:240-250 | Tokens stay in [0, capacity], whatever the store forgets |
| TokenBucket.IdealWindow | cloud/gateway.py:236-251 | In every window of every run a never-forgetting store admits a key at most capacity + rate * length times |
| TokenBucket.ForgettingUnobserved | micro_agent/interoperability/http_api.py:231-248 | From any state in which only full buckets are missing, a store whose idle time fills every bucket answers all future calls like one that never forgets |
| TokenBucket.SufficientIsEnough | cloud/gateway.py:382-392 | If the idle time fills every bucket, all answers equal the ideal store's and every window keeps the bound, absent eviction |
| GreedyBucket.GreedyExactly | micro_agent/interoperability/http_api.py:239-253 | A never-forgetting store admits a call if and only if every window ending with it can afford it, so none is refused that the bound allows |
| GreedyBucket.TightSince | micro_agent/interoperability/http_api.py:239-250 | At any time a bucket holds exactly the capacity plus rate * time less the admissions since some call at which it was full |
| GreedyBucket.RefusalIsFree | micro_agent/interoperability/http_api.py:243-253 | In such a store the answers after a refused call are those without it |
| GreedyBucket.RefusalsFreeExactly | micro_agent/interoperability/http_api.py:226-253 | In each of the three stores, as long as nothing has to be evicted, refused calls change no other answer if and only if the idle time (ttl) fills every bucket |
| ForgetfulBuckets.ForgettingExactly | micro_agent/interoperability/http_api.py:226-253 | For the HTTP store and the Redis keys: answers equal the ideal ones on all call sequences, and likewise the window bound holds on all of them, if and only if the idle time (ttl) fills every bucket |
| ForgetfulBuckets.CrowdedExactly | cloud/gateway.py:308-318 | For the gateway's own buckets, at every maximum of two and more: answers equal the ideal ones if and only if the idle time fills every bucket, and the window bound holds if and only if it does |
| ForgetfulBuckets.OnePlaceExactly | cloud/gateway.py:382-392 | With a maximum of one: both hold if and only if twice the idle time fills every bucket |
| ForgetfulBuckets.AMinuteIsEnough | cloud/gateway_state.py:18-37 | Where buckets refill once a minute (gateway and Redis) the condition is idle time (ttl) >= 60 |
| ForgetfulBuckets.TooMany | micro_agent/interoperability/http_api.py:231-234 | The failing family: spend everything, wait just past the idle time, spend everything again |
| RateLimitStores.InMemoryRateLimitStore.Consume | micro_agent/interoperability/http_api.py:226-253 | The call finds what the key's unpurged bucket had plus what time added, or a full bucket, takes a token exactly if there is one, and a refused call takes nothing; other buckets stay unless idle too long or oldest and in the way; never more than max_buckets buckets |
| RateLimitStores.RemainingIsExact | micro_agent/interoperability/http_api.py:250-251 | The remaining count of an admitted call is exactly the number of further calls admitted at that instant, in every store |
| RateLimitStores.WaitingIsEnough | micro_agent/interoperability/http_api.py:252-253 | A caller refused by the store is admitted after the advised time |
| RateLimitStores.RoundedAdvice | micro_agent/interoperability/http_api.py:294-305 | After the limiter's rounded advice it is admitted except if and only if the time needed exceeds a whole number of seconds, at least one, by less than a millisecond |
| RateLimitStores.GatewayBuckets.EvictBuckets | cloud/gateway.py:382-392 | Only when full: idle buckets go, then the least recently used, leaving exactly one place |
| RateLimitStores.GatewayBuckets.RateLimit | cloud/gateway.py:308-318 | The same for the gateway's own buckets, where only a full store drops others |
| RateLimitStores.RedisRateKey.AllowRateLimit | cloud/gateway_state.py:18-37 | The same for the script on the unexpired keys, which renews the ttl; a rate of zero or less refuses without writing |
| SharedCircuit.NoEarlyGrant | cloud/gateway_state.py:39-73 | For every interleaving of scripts, key expiry included: after a trip nothing is granted before the cooldown is over unless a success is recorded |
| SharedCircuit.WindowIsExact | cloud/gateway_state.py:39-57 | With only refused requests since the trip, a request is granted if and only if the cooldown is over |
| SharedCircuit.SingleProbe | cloud/gateway_state.py:175-203 | After a probe nothing more is granted until a success or failure is recorded or the key's ttl is over |
| SharedCircuit.OpenNeedsFailures | cloud/gateway_state.py:59-73 | open_until > 0 implies failures >= threshold, all recorded since the last success, and the key expires after open_until |
| SharedCircuit.FailuresTrip | cloud/gateway_state.py:59-73 | The threshold's failures within one ttl, with no success between, open the circuit |
| SharedCircuit.ClosedGrants | cloud/gateway_state.py:39-57 | With fewer failures than the threshold since the last success every request is granted |
| SharedCircuit.RedisCircuitKey.Available | cloud/gateway_state.py:39-57 | The script on the hash fields is the step the run theorems are about |
| SharedCircuit.RedisCircuitKey.RecordFailure | cloud/gateway_state.py:59-73 | The failure script likewise |
| SharedCircuit.RedisCircuitKey.RecordSuccess | cloud/gateway_state.py:189-190 | A success deletes the key |
| Bulkhead.GrantsExactly | cloud/gateway_state.py:75-87 | Redis grants a lease if and only if fewer than the limit of the leases granted and not released are unexpired: neither the purge nor the key's EXPIRE drops a live lease |
| Bulkhead.WithinLimit | cloud/gateway_state.py:75-87 | At every instant, after any acquire/release/crash history, unexpired leases number at most max_concurrency |
| Bulkhead.HeldExactly | cloud/gateway_state.py:205-218 | The leases counted are exactly those granted and not released since, each until grant time + lease time |
| Bulkhead.RedisBulkheadKey.TryAcquire | cloud/gateway_state.py:75-87 | The script on the sorted set is the step those theorems are about |
| Bulkhead.RedisBulkheadKey.ReleaseLease | cloud/gateway_state.py:217-218 | A release removes this lease only |
| GatewayForward.Gateway.Forward | cloud/gateway.py:402-512 | With other requests running at every await: the response follows from the outcomes of the targets visited in rotation order; each visited entry is sent to at most once, one entry only unless GET/HEAD or an idempotency key; every slot and lease is given back once, except that of an opened stream; verdicts recorded match the outcomes |
| GatewayForward.Gateway.Walk | cloud/gateway.py:437-512 | The loop over the targets, with the log that decides the response |
| GatewayForward.Gateway.Attempt | cloud/gateway.py:437-510 | One target, all outcomes: slot and lease are given back exactly once before the next target, or held by the stream; an unavailable target is never sent to, and without shared state an available one with a free slot always is |
| GatewayForward.Gateway.StreamBody | cloud/gateway.py:529-563 | A stream that ends or breaks records one verdict and gives back its slot and lease once |
| GatewayForward.Gateway.SelectTargets | cloud/gateway.py:394-400 | The available targets in order, rotated by the counter; the counter moves past the start |
| GatewayForward.ResponseIs | cloud/gateway.py:437-512 | The first answer below 500, streamed or whole, or an error of the shared state or an unreadable failed stream, ends the walk and is the response; otherwise every target was visited and the last answer of 500 or more is passed on, or a 503 if there was none |
| GatewayForward.Gateway.AskAll | cloud/gateway.py:394-396 | The targets whose breaker lets requests through, in order |
| GatewayForward.Gateway.Rotate | cloud/gateway.py:397-400 | They start at the counter, which moves past the start |
| GatewayForward.EachStartsOnce | cloud/gateway.py:394-400 | n successive selections among n available targets start at each exactly once |
| GatewayForward.RotationIsPermutation | cloud/gateway.py:400-400 | A rotation is a permutation |
| GatewayForward.OneSendEach | cloud/gateway.py:433-437 | Distinct entries are each sent to at most once, and only when visited |
| GatewayForward.OneSendAtMost | cloud/gateway.py:431-433 | A walk of at most one visit sends at most once in all |
| GatewayForward.LocalWindowIsExact | cloud/gateway.py:206-224 | The process-local breaker lets requests through exactly once the cooldown is over, then all of them, and one failure trips it again |
| GatewayForward.OpensAtThreshold | cloud/gateway.py:214-224 | Since a success the breaker lets every request through until as many failures as the threshold were recorded, and the last of them opens it |
| GatewayForward.Target.TryAcquire | cloud/gateway.py:193-199 | A slot is taken exactly when one is free; holders and permits always add up to the maximum |
| GatewayForward.Target.ReleaseSlot | cloud/gateway.py:201-202 | Only a holder gives a slot back |
| GatewayForward.Target.Available | cloud/gateway.py:204-212 | The half-open transition as the breaker step |
| GatewayForward.Target.RecordFailure | cloud/gateway.py:218-221 | A failure counts, and trips at the threshold |
| AnthropicWire.FoldKeeps | micro_agent/models/anthropic.py:83-125 | For every transcript: the wire roles alternate, and the blocks on the wire, with their roles, are exactly those of the non-system messages in order |
| AnthropicWire.Payload | micro_agent/models/anthropic.py:77-125 | The loop produces that conversion, and the non-empty system texts in order |
| AnthropicWire.EntrySays | micro_agent/models/anthropic.py:86-123 | What one message becomes: a tool message one result under the first id it has, an assistant's calls one use each after its text, anything else its content, as the assistant's only if it is the assistant's |
| AnthropicWire.ItemsTextJoins | micro_agent/models/anthropic.py:284-297 | The text of list content is that of its items in order |
| AnthropicWire.SystemTextsJoin | micro_agent/models/anthropic.py:88-92 | The system prompt is built message by message in order |
| AnthropicWire.SystemTextIs | micro_agent/models/anthropic.py:88-92 | A message adds to the system prompt exactly if it is a system message with text, and then that text |
| AnthropicWire.AppendMessage | micro_agent/models/anthropic.py:261-274 | A message is merged into a last one of its role, else appended |
| AnthropicWire.AnsweredExactly | micro_agent/models/anthropic.py:92-125 | On a complete transcript every tool_use group is answered by the next user message, results first and in order, if and only if the tool messages name their calls' ids |
| AnthropicWire.LoopTurnsAnswered | runtimes/adk/runtime.py:941-948 | A turn the agent loop built is so answered if and only if no wave replayed after an approval lost an id that differs from the tool's name; without such a wave it always is |
| NextRequest.NextRequestComplete | runtimes/adk/runtime.py:853-861 | The next request of a session has all its tool calls answered if and only if the twenty messages it quotes do not start inside a group of answers and contain no turn that max_iterations cut |
| NextRequest.StoredGoesOn | runtimes/adk/runtime.py:1111-1120 | A session stays a sequence of answered or cut groups when a finished turn is stored as it is |
| ConfigStore.TableIsKept | cloud/config.py:233-263 | After any calls the table is exactly what retention leaves of everything it stored: the i-th record stored has version i, the newest is never dropped, what is left has its payload |
| ConfigStore.AgreeExactly | cloud/config.py:103-145 | SQLite and the append-only list give the same outcomes on a sequence of calls if and only if it rolls back to no dropped version |
| ConfigStore.VersionsStand | cloud/config.py:265-310 | A version read at any two times is the same record; a dropped version never comes back |
| ConfigStore.NewestIsRetained | cloud/config.py:253-258 | MAX(version) of the table is the length of the list |
| ConfigStore.RollbackToDropped | cloud/config.py:308-310 | Concrete calls on which the list rolls back and SQLite reports a missing version |
| ConfigStore.InMemoryConfigStore.Store | cloud/config.py:103-118 | Store appends one record to this lineage and touches no other; an invalid payload or empty agent changes nothing |
| ConfigStore.InMemoryConfigStore.Get | cloud/config.py:119-130 | Pinned version or latest, found by scanning the list |
| ConfigStore.InMemoryConfigStore.Rollback | cloud/config.py:137-145 | Rollback stores the old payload as a new version |
| ConfigStore.SqliteConfigStore.Store | cloud/config.py:233-263 | Number, insert and purge in one transaction, as the step the run theorems are about |
| ConfigStore.SqliteConfigStore.Get | cloud/config.py:265-296 | Pinned version or the greatest stored; missing and invalid arguments are told apart |
| ConfigStore.SqliteConfigStore.Rollback | cloud/config.py:308-310 | Rollback reads a retained version and stores it anew |
| AgentModel.Screen | runtimes/adk/runtime.py:1303-1378 | The verdicts before a body runs: unknown tool, invalid arguments, tool policy, side-effect policy, in that order; only permitted requests pass, and a refusal is the one the failing verdict calls for |
| AgentModel.ScreenDecides | runtimes/adk/runtime.py:1303-1378 | What can answer a request is decided by those checks: a refusal of the one kind they end in, or, if they pass, execution or a deduplicated result |
| Runtime.AdkRuntime.ClaimOperation | runtimes/adk/runtime.py:1380-1428 | A granted claim of a keyed operation goes on record, also when the registry then fails to answer, and is the attempt's to use once; operations without a key are always granted when the registry answers |
| Runtime.AdkRuntime.LoadSession | runtimes/adk/runtime.py:817-838 | What is loaded is the stored session, created empty when missing |
| Runtime.AdkRuntime.UpdateSession | runtimes/adk/runtime.py:1111-1120 | On success the session holds its loaded history followed by the turn, one version up; a session changed since it was loaded is a retryable conflict; a write that failed may have landed, at most once |
| Runtime.AdkRuntime.StoreTurn | runtimes/adk/runtime.py:1111-1120 | That write as one step |
| Runtime.AdkRuntime.AssignIds | runtimes/adk/runtime.py:1018-1022 | Calls that carry an id are kept as they are, others only get one |
| Runtime.AdkRuntime.Prepare | runtimes/adk/runtime.py:769-948 | Whatever the kind of request, the loop starts on a complete transcript with an iteration left, from the start the request asks for, and with history and version as its session held them at the event that read them; it fails otherwise only if an await did or the request is refused |
| Runtime.AdkRuntime.PrepareFresh | runtimes/adk/runtime.py:817-861 | A fresh request starts on its session as it was in the store at that event: system prompt, the last twenty messages, the input |
| Runtime.AdkRuntime.PrepareResume | runtimes/adk/runtime.py:769-851 | A resume starts on the record, and works on the history and version its session holds when it reads them |
| Runtime.AdkRuntime.PrepareContinue | runtimes/adk/runtime.py:781-948 | A continuation starts on the approval, works on the session as it reads it now, subtracts that history's tail, and replays the wave |
| Runtime.AdkRuntime.RunAttempt | runtimes/adk/runtime.py:738-1168 | Prepare, initial checkpoint, loop and conclusion, with what each ending leaves behind; begun at most once and at most one turn stored, also on failure |
| Runtime.AdkRuntime.EndAttempt | runtimes/adk/runtime.py:1142-1168 | After its end an attempt is nobody's any more |
| Runtime.AdkRuntime.Interfere | runtimes/adk/runtime.py:769-1142 | What others may do at an await: anything their own attempts are allowed, records of other agents, expiry; this attempt's state stays |
| Runtime.AdkRuntime.PutCheckpoint | runtimes/adk/runtime.py:950-968 | The save as one step |
| Runtime.AdkRuntime.DropCheckpoint | runtimes/adk/runtime.py:1067-1072 | The delete as one step |
| Runtime.AdkRuntime.PutApproval | runtimes/adk/runtime.py:1049-1065 | The pause as one step |
| VersionedState.PostgresRow.InsertOrBump | micro_agent/session/postgres.py:180-203 | The insert-or-bump statement moves whatever version is there up by one |
| Idempotency.RedisOperationKey.SetIfAbsent | micro_agent/security/redis_operations.py:108-140 | SET NX is granted exactly when no grant is in force |
| Idempotency.RedisOperationKey.TryReserve | micro_agent/security/redis_operations.py:114-122 | One SET NX after others had their turn: one own grant, or the key met in the hands of an unexpired entry |
| Idempotency.RedisOperationKey.Get | micro_agent/security/redis_operations.py:95-106 | A GET finds an entry exactly while some grant is in force |
| Idempotency.PostgresOperationRow.Insert | micro_agent/memory/postgres.py:372-383 | The insert reserves exactly when there is no row, expired or not |
| Idempotency.PostgresOperationRow.Reclaim | micro_agent/memory/postgres.py:387-399 | The reclaim takes the row exactly when it has expired |
| Idempotency.PostgresOperationRow.Publish | micro_agent/memory/postgres.py:432-448 | The update publishes exactly when the row is the worker's, expired or not |
| RateLimitStores.InMemoryRateLimitStore.MakeRoom | micro_agent/interoperability/http_api.py:230-238 | Buckets idle for too long go, and one of the oldest only if the key still needs a place |
| RateLimitStores.InMemoryRateLimitStore.Spend | micro_agent/interoperability/http_api.py:239-253 | The ideal step on the buckets that are left, with the remaining count or the time to wait |
| RateLimitStores.Oldest | micro_agent/interoperability/http_api.py:236-236 | One of the least recently used buckets |
| RateLimitStores.GatewayBuckets.TryTake | cloud/gateway.py:236-251 | The ideal step on one bucket, a new key starting full |
| RateLimitStores.RedisRateKey.DropExpired | cloud/gateway_state.py:34-36 | Exactly the keys whose ttl is over disappear |
| GatewayForward.Gateway.TargetAvailable | cloud/gateway.py:329-339 | The shared breaker is asked only if the local one agrees |
| GatewayForward.Gateway.TryAcquire | cloud/gateway.py:341-358 | A slot without a lease is given back on refusal and on error; afterwards the request holds a slot exactly if it acquired |
| GatewayForward.Gateway.Release | cloud/gateway.py:360-366 | The slot is given back once, and the lease, if there is one, once |
| GatewayForward.Gateway.AttemptNext | cloud/gateway.py:437-510 | One visit counted: sends per target match the log |
| GatewayForward.Gateway.Settle | cloud/gateway.py:447-510 | After the upstream's answer one verdict is recorded and slot and lease go back once, unless a stream was opened |
| GatewayForward.Gateway.Fail | cloud/gateway.py:373-380 | A failure moves the breaker by its failure step; slots stay, others act afterwards |
| GatewayForward.Gateway.Succeed | cloud/gateway.py:368-371 | A success closes the breaker; slots stay, others act afterwards |
| AnthropicWire.AssistantBlocks | micro_agent/models/anthropic.py:102-115 | Text first if there is any, then one tool_use block per call in order |
| ConfigStore.SqliteConfigStore.SelectNewest | cloud/config.py:242-246 | The greatest version stored, 0 without any |

## Left out

- Runtime.AdkRuntime.Invoke: does not model jitter, the definition's circuit breaker, streamed-output suppression on later attempts (the code checks it after the first attempt only), or cancellation from outside. Each failure is a deadline or an error that is retryable or not; error types beyond that are not told apart.
- Runtime.AdkRuntime.StoreApproval: saving the approval and deleting the checkpoint is one step here, as is get and delete of a continuation; between the two commands of a shared store a second resume could slip in, and a failure could leave the first done without the second.
- Runtime.AdkRuntime.InvokeInner: the memory entry, knowledge retrieval and usage figures of an invocation are not modelled.
- Runtime.AdkRuntime.ClaimOperation: registries without a claim operation are not modelled.
- KeyedExecution.KeyedBodyOnce: speaks of workers of one tenant; workers of others use other storage keys.
- VersionedState.RedisSession.Update: the path for clients without WATCH, the session index and document text are not modelled; a writer with expected version 0 writes blindly, as in the code.
- VersionedState.PostgresRow.GuardedWrite: the purge of surplus memory entries after a store is not modelled.
- Runtime.AdkRuntime.UpdateSession: the write is guarded by the version loaded, as in the shared providers; what the in-memory provider does instead is in InMemoryCheckAgrees.
- VersionedState.InMemorySessions.Update: stored session objects are values here, so aliasing between the store and its callers is not captured.
- RateLimitStores.GatewayBuckets.RateLimit: buckets are values in the map, and the two clock reads of one call are one.
- GreedyBucket.RefusalsFreeExactly: a gateway that keeps one bucket only gets the sufficient direction (SufficientIsFree).
- TokenBucket.IdealWindow: floating-point rounding and calls that overtake each other between reading the clock and taking the lock are not modelled.
- Lifecycle.DefaultMicroAgent.Leave: cancellation arrives only while the runtime's invoke or stream is running, and each invocation has its own task; a cancel on the lock acquisition itself would skip the decrement.
- GatewayForward.Gateway.Forward: routing, authorization, rate limiting and header filtering before target selection are not modelled; a stream body runs to its end or a transport error, other exceptions while opening a stream are not handled by the code. Verdicts also sent to the shared store are best effort in the code and not followed here.
- GatewayForward.LocalWindowIsExact: the process-local breakers do not promise a single probe, and none is claimed.
- AnthropicWire.Payload: generation settings, tool schemas, JSON parsing of arguments and the streaming response parser are not modelled.
- ConfigStore.SqliteConfigStore.Rollback: read and store are one step; a store in between only changes the number assigned. The history listing is not modelled.
- Session-backed checkpoints, the Redis approval store, memory eviction, knowledge retrieval, audit and telemetry: flat I/O around the same records.
- HTTP routing, MCP and A2A adapters, OIDC, secrets, bootstrap and configuration models: libraries or field-by-field copying.
- JSON text, hashing, uuid generation, percent-encoding and policy evaluation: abstract values and uninterpreted functions.
