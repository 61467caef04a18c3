// The lifecycle monitor of an agent: one lock, one condition, an active
// counter, an idle event and a stop-complete event, used by any number of
// invoking and stopping tasks.
module Lifecycle {
  import opened Wrappers

  type Task = nat

  datatype AgentState = Created | Initialized | Starting | Ready | Stopping | Stopped | Error

  // `maxConcurrency` None means unlimited; a configured limit is at least 1.
  datatype Config = Config(maxConcurrency: Option<nat>, rejects: bool)

  predicate ValidConfig(c: Config) {
    c.maxConcurrency.Some? ==> c.maxConcurrency.value >= 1
  }

  predicate Full(c: Config, active: nat) {
    c.maxConcurrency.Some? && active >= c.maxConcurrency.value
  }

  // The monitor's fields. `waiting` are tasks inside the condition's wait that
  // nobody has notified, `notified` those that still have to take the lock.
  datatype Monitor = Monitor(
    state: AgentState,
    active: nat,
    tasks: set<Task>,
    idle: bool,
    stopComplete: bool,
    waiting: set<Task>,
    notified: set<Task>)

  const NewMonitor := Monitor(Created, 0, {}, true, false, {}, {})

  datatype Admission = Admitted | Waits | Overloaded | WrongState | InvalidInput

  datatype StopRole = Nothing | WaitForOther | Owner

  // ---------------------------------------------------------------------
  // What each locked region does to the monitor
  // ---------------------------------------------------------------------

  function InitializeRegion(m: Monitor, created: bool): Monitor {
    if m.state == Created && created then m.(state := Initialized) else m
  }

  function StartRegion(m: Monitor, started: bool): Monitor {
    if m.state == Initialized then m.(state := if started then Ready else Error) else m
  }

  // From entering the lock, or waking up inside it, to leaving it again.
  function AdmitRegion(c: Config, m: Monitor, task: Task, inputValid: bool): (Monitor, Admission) {
    var woken := m.(notified := m.notified - {task});
    if Full(c, m.active) then
      if c.rejects then (woken, Overloaded) else (woken.(waiting := m.waiting + {task}), Waits)
    else if m.state != Ready then (woken, WrongState)
    else if !inputValid then (woken, InvalidInput)
    else (woken.(active := m.active + 1, idle := false, tasks := m.tasks + {task}), Admitted)
  }

  function NotifyAll(m: Monitor): Monitor {
    m.(waiting := {}, notified := m.notified + m.waiting)
  }

  function LeaveRegion(m: Monitor, task: Task): Monitor
    requires m.active > 0
  {
    NotifyAll(m.(active := m.active - 1, tasks := m.tasks - {task}, idle := m.idle || m.active == 1))
  }

  function BeginStopRegion(m: Monitor): (Monitor, StopRole) {
    match m.state
    case Stopped => (m, Nothing)
    case Created => (m, Nothing)
    case Stopping => (m, WaitForOther)
    case _ => (NotifyAll(m.(state := Stopping, stopComplete := false)), Owner)
  }

  function EndStopRegion(m: Monitor, stopped: bool): Monitor {
    m.(state := if stopped then Stopped else Error, stopComplete := true)
  }

  // ---------------------------------------------------------------------
  // The monitor itself
  // ---------------------------------------------------------------------

  class DefaultMicroAgent {
    const config: Config
    var state: AgentState
    var activeInvocations: nat
    var invocationTasks: set<Task>
    var idle: bool
    var stopComplete: bool
    var waiting: set<Task>
    var notified: set<Task>

    function Fields(): Monitor
      reads this
    {
      Monitor(state, activeInvocations, invocationTasks, idle, stopComplete, waiting, notified)
    }

    constructor (config: Config)
      ensures this.config == config && Fields() == NewMonitor
    {
      this.config := config;
      state, activeInvocations, invocationTasks := Created, 0, {};
      idle, stopComplete, waiting, notified := true, false, {}, {};
    }

    method Initialize(created: bool) returns (ok: bool)
      modifies this
      ensures Fields() == InitializeRegion(old(Fields()), created)
      ensures ok <==> old(state) == Created && created
      ensures Fields() == old(Fields()).(state := if ok then Initialized else old(state))
    {
      if state != Created || !created {
        return false;
      }
      state := Initialized;
      ok := true;
    }

    method Start(supported: bool, healthy: bool) returns (ok: bool)
      modifies this
      ensures Fields() == StartRegion(old(Fields()), supported && healthy)
      ensures ok <==> old(state) == Initialized && supported && healthy
      ensures Fields() == old(Fields()).(state := if ok then Ready else if old(state) == Initialized then Error else old(state))
    {
      if state != Initialized {
        return false;
      }
      state := Starting;
      if !supported || !healthy {
        state := Error;
        return false;
      }
      state := Ready;
      ok := true;
    }

    // One stay in the lock on the way in: first entry or wake-up.
    method Admit(task: Task, inputValid: bool) returns (admission: Admission)
      modifies this
      ensures (Fields(), admission) == AdmitRegion(config, old(Fields()), task, inputValid)
      ensures var atLimit := config.maxConcurrency.Some? && old(activeInvocations) >= config.maxConcurrency.value;
              && (admission == Overloaded <==> atLimit && config.rejects)
              && (admission == Waits <==> atLimit && !config.rejects)
              && (admission == WrongState <==> !atLimit && old(state) != Ready)
              && (admission == InvalidInput <==> !atLimit && old(state) == Ready && !inputValid)
              && (admission == Admitted <==> !atLimit && old(state) == Ready && inputValid)
      ensures state == old(state) && stopComplete == old(stopComplete) && notified == old(notified) - {task}
      ensures waiting == old(waiting) + if admission == Waits then {task} else {}
      ensures activeInvocations == old(activeInvocations) + (if admission == Admitted then 1 else 0)
      ensures invocationTasks == old(invocationTasks) + if admission == Admitted then {task} else {}
      ensures idle <==> old(idle) && admission != Admitted
    {
      notified := notified - {task};
      if config.maxConcurrency.Some? && activeInvocations >= config.maxConcurrency.value {
        if config.rejects {
          return Overloaded;
        }
        waiting := waiting + {task};
        return Waits;
      }
      if state != Ready {
        return WrongState;
      }
      if !inputValid {
        return InvalidInput;
      }
      activeInvocations := activeInvocations + 1;
      idle := false;
      invocationTasks := invocationTasks + {task};
      admission := Admitted;
    }

    method Leave(task: Task)
      requires activeInvocations > 0
      modifies this
      ensures Fields() == LeaveRegion(old(Fields()), task)
      ensures activeInvocations == old(activeInvocations) - 1 && invocationTasks == old(invocationTasks) - {task}
      ensures idle <==> old(idle) || activeInvocations == 0
      ensures waiting == {} && notified == old(notified) + old(waiting)
      ensures state == old(state) && stopComplete == old(stopComplete)
    {
      activeInvocations := activeInvocations - 1;
      invocationTasks := invocationTasks - {task};
      if activeInvocations == 0 {
        idle := true;
      }
      notified, waiting := notified + waiting, {};
    }

    method BeginStop() returns (role: StopRole)
      modifies this
      ensures (Fields(), role) == BeginStopRegion(old(Fields()))
      ensures role == Nothing <==> old(state) in {Created, Stopped}
      ensures role == WaitForOther <==> old(state) == Stopping
      ensures role == Owner ==>
                && state == Stopping && !stopComplete && waiting == {} && notified == old(notified) + old(waiting)
                && activeInvocations == old(activeInvocations) && invocationTasks == old(invocationTasks) && idle == old(idle)
      ensures role != Owner ==> Fields() == old(Fields())
    {
      if state == Stopped || state == Created {
        return Nothing;
      }
      if state == Stopping {
        return WaitForOther;
      }
      state := Stopping;
      stopComplete := false;
      notified, waiting := notified + waiting, {};
      role := Owner;
    }

    method EndStop(stopped: bool)
      modifies this
      ensures Fields() == EndStopRegion(old(Fields()), stopped)
      ensures Fields() == old(Fields()).(state := if stopped then Stopped else Error, stopComplete := true)
    {
      state := if stopped then Stopped else Error;
      stopComplete := true;
    }
  }

  // ---------------------------------------------------------------------
  // Any number of tasks over one monitor
  // ---------------------------------------------------------------------

  // Where the owner of a stop is. While Cancelling it has asked the tasks in
  // flight to end and still waits for the idle event.
  datatype StopStage = Draining | Cancelling | StoppingRuntime

  // `running` are the invocations between admission and leaving; `owners` the
  // stops that own a shutdown; `others` those that wait for one.
  datatype System = System(m: Monitor, running: set<Task>, owners: map<Task, StopStage>, others: set<Task>)

  const NewSystem := System(NewMonitor, {}, map[], {})

  datatype Action =
    | DoInitialize(created: bool)
    | DoStart(started: bool)
    | DoEnter(task: Task, inputValid: bool)
    | DoWake(task: Task, inputValid: bool)
    | DoLeave(task: Task)
    | DoBeginStop(task: Task)
    | DoTimeout(task: Task)
    | DoCallRuntimeStop(task: Task)
    | DoEndStop(task: Task, stopped: bool)
    | DoReleaseOther(task: Task)

  predicate Unknown(s: System, task: Task) {
    task !in s.running && task !in s.m.waiting && task !in s.m.notified && task !in s.m.tasks
  }

  predicate Enabled(s: System, a: Action) {
    match a
    case DoInitialize(_) => true
    case DoStart(_) => true
    case DoEnter(task, _) => Unknown(s, task)
    case DoWake(task, _) => task in s.m.notified
    case DoLeave(task) => task in s.running && s.m.active > 0
    case DoBeginStop(task) => task !in s.owners && task !in s.others
    case DoTimeout(task) => task in s.owners && s.owners[task] == Draining
    case DoCallRuntimeStop(task) => task in s.owners && s.owners[task] != StoppingRuntime && s.m.idle
    case DoEndStop(task, _) => task in s.owners && s.owners[task] == StoppingRuntime
    case DoReleaseOther(task) => task in s.others && s.m.stopComplete
  }

  predicate Admits(c: Config, s: System, a: Action) {
    (a.DoEnter? || a.DoWake?) && AdmitRegion(c, s.m, a.task, a.inputValid).1 == Admitted
  }

  function Step(c: Config, s: System, a: Action): System
    requires Enabled(s, a)
  {
    match a
    case DoInitialize(created) => s.(m := InitializeRegion(s.m, created))
    case DoStart(started) => s.(m := StartRegion(s.m, started))
    case DoEnter(task, inputValid) =>
      s.(m := AdmitRegion(c, s.m, task, inputValid).0,
         running := if Admits(c, s, a) then s.running + {task} else s.running)
    case DoWake(task, inputValid) =>
      s.(m := AdmitRegion(c, s.m, task, inputValid).0,
         running := if Admits(c, s, a) then s.running + {task} else s.running)
    case DoLeave(task) => s.(m := LeaveRegion(s.m, task), running := s.running - {task})
    case DoBeginStop(task) =>
      var (m, role) := BeginStopRegion(s.m);
      s.(m := m,
         owners := if role == Owner then s.owners[task := Draining] else s.owners,
         others := if role == WaitForOther then s.others + {task} else s.others)
    case DoTimeout(task) => s.(owners := s.owners[task := Cancelling])
    case DoCallRuntimeStop(task) => s.(owners := s.owners[task := StoppingRuntime])
    case DoEndStop(task, stopped) => s.(m := EndStopRegion(s.m, stopped), owners := s.owners - {task})
    case DoReleaseOther(task) => s.(others := s.others - {task})
  }

  // ---------------------------------------------------------------------
  // The invariant
  // ---------------------------------------------------------------------

  // Counters, events and waiters agree with the invocations running.
  ghost predicate Counted(c: Config, m: Monitor, running: set<Task>) {
    && m.active == |running|
    && m.tasks == running
    && (m.idle <==> m.active == 0)
    && (c.maxConcurrency.Some? ==> m.active <= c.maxConcurrency.value)
    && (m.waiting != {} ==> Full(c, m.active))
    && m.waiting !! running && m.notified !! running && m.waiting !! m.notified
    && (m.state == Created || m.state == Initialized ==> running == {})
  }

  // There is one owner exactly while STOPPING, and it has called the runtime's
  // stop only with nothing running.
  ghost predicate StopOwned(state: AgentState, owners: map<Task, StopStage>, running: set<Task>) {
    && state != Starting
    && (state == Stopping <==> owners != map[])
    && (forall i, j :: i in owners && j in owners ==> i == j)
    && (forall t <- owners :: owners[t] == StoppingRuntime ==> running == {})
  }

  ghost predicate Inv(c: Config, s: System) {
    && Counted(c, s.m, s.running)
    && StopOwned(s.m.state, s.owners, s.running)
  }

  lemma AdmissionKeepsCounted(c: Config, m: Monitor, running: set<Task>, task: Task, inputValid: bool)
    requires ValidConfig(c) && Counted(c, m, running)
    requires task !in running && task !in m.waiting
    ensures var (m', admission) := AdmitRegion(c, m, task, inputValid);
            Counted(c, m', if admission == Admitted then running + {task} else running)
  {
  }

  lemma LeavingKeepsCounted(c: Config, m: Monitor, running: set<Task>, task: Task)
    requires Counted(c, m, running) && task in running && m.active > 0
    ensures Counted(c, LeaveRegion(m, task), running - {task})
  {
    assert |running - {task}| == |running| - 1;
  }

  lemma StopStepKeepsOwned(c: Config, s: System, a: Action)
    requires Inv(c, s) && Enabled(s, a)
    requires a.DoBeginStop? || a.DoTimeout? || a.DoCallRuntimeStop? || a.DoEndStop? || a.DoReleaseOther?
    ensures StopOwned(Step(c, s, a).m.state, Step(c, s, a).owners, s.running)
  {
    var owners := Step(c, s, a).owners;
    match a
    case DoBeginStop(task) => assert task in owners || owners == s.owners;
    case DoEndStop(task, _) => assert owners.Keys == {};
    case DoTimeout(task) => assert task in owners;
    case DoCallRuntimeStop(task) =>
      assert task in owners;
      assert |s.running| == 0;
    case DoReleaseOther(_) =>
  }

  lemma StepKeepsInv(c: Config, s: System, a: Action)
    requires ValidConfig(c) && Inv(c, s) && Enabled(s, a)
    ensures Inv(c, Step(c, s, a))
  {
    match a
    case DoEnter(task, inputValid) => AdmissionKeepsCounted(c, s.m, s.running, task, inputValid);
    case DoWake(task, inputValid) => AdmissionKeepsCounted(c, s.m, s.running, task, inputValid);
    case DoLeave(task) => LeavingKeepsCounted(c, s.m, s.running, task);
    case DoInitialize(_) =>
    case DoStart(_) =>
    case _ => StopStepKeepsOwned(c, s, a);
  }

  // ---------------------------------------------------------------------
  // Runs
  // ---------------------------------------------------------------------

  ghost predicate Possible(c: Config, run: seq<Action>) {
    run == [] || (Possible(c, run[..|run| - 1]) && Enabled(After(c, run[..|run| - 1]), run[|run| - 1]))
  }

  // The system after a run; actions that are not enabled change nothing.
  function After(c: Config, run: seq<Action>): System {
    if run == [] then NewSystem
    else
      var s := After(c, run[..|run| - 1]);
      if Enabled(s, run[|run| - 1]) then Step(c, s, run[|run| - 1]) else s
  }

  lemma {:induction false} PrefixPossible(c: Config, run: seq<Action>, i: nat)
    requires Possible(c, run) && i <= |run|
    ensures Possible(c, run[..i])
    decreases |run|
  {
    if i < |run| {
      PrefixPossible(c, run[..|run| - 1], i);
      assert run[..|run| - 1][..i] == run[..i];
    } else {
      assert run[..i] == run;
    }
  }

  lemma {:induction false} Reachable(c: Config, run: seq<Action>)
    requires ValidConfig(c) && Possible(c, run)
    ensures Inv(c, After(c, run))
  {
    if run != [] {
      Reachable(c, run[..|run| - 1]);
      hide Inv, Enabled, Step;
      StepKeepsInv(c, After(c, run[..|run| - 1]), run[|run| - 1]);
    }
  }

  // Action i of a run starts in the state its prefix reached.
  lemma RunStep(c: Config, run: seq<Action>, i: nat)
    requires Possible(c, run) && i < |run|
    ensures Enabled(After(c, run[..i]), run[i])
    ensures After(c, run[..i + 1]) == Step(c, After(c, run[..i]), run[i])
  {
    PrefixPossible(c, run, i + 1);
    assert run[..i + 1][..i] == run[..i];
  }

  // In every reachable state the limit holds, the idle event is set exactly
  // when nothing is active, and tasks nobody has notified wait only while the
  // agent is at its limit; so once everything drained nobody is stranded.
  lemma CapacityAndNoLostWakeup(c: Config, run: seq<Action>)
    requires ValidConfig(c) && Possible(c, run)
    ensures var s := After(c, run);
            && s.m.active == |s.running|
            && (c.maxConcurrency.Some? ==> |s.running| <= c.maxConcurrency.value)
            && (s.m.idle <==> s.running == {})
            && (s.m.waiting != {} ==> Full(c, |s.running|))
            && (s.running == {} ==> s.m.waiting == {})
  {
    Reachable(c, run);
    var s := After(c, run);
    if s.running == {} {
      assert |s.running| == 0;
    }
  }

  // ---------------------------------------------------------------------
  // Drain safety
  // ---------------------------------------------------------------------

  // How far the one-way part of the lifecycle has come; it never goes back.
  function Stage(state: AgentState): nat {
    match state
    case Created => 0
    case Initialized => 1
    case Starting => 2
    case Ready => 3
    case _ => 4
  }

  lemma StageGrows(c: Config, s: System, a: Action)
    requires ValidConfig(c) && Inv(c, s) && Enabled(s, a)
    ensures Stage(s.m.state) <= Stage(Step(c, s, a).m.state)
  {
    if a.DoEndStop? {
      assert s.owners != map[];
    }
  }

  lemma {:induction false} StageMonotone(c: Config, run: seq<Action>, i: nat, j: nat)
    requires ValidConfig(c) && Possible(c, run) && i <= j <= |run|
    ensures Stage(After(c, run[..i]).m.state) <= Stage(After(c, run[..j]).m.state)
    decreases j
  {
    if i < j {
      StageMonotone(c, run, i, j - 1);
      PrefixPossible(c, run, j - 1);
      Reachable(c, run[..j - 1]);
      RunStep(c, run, j - 1);
      hide Inv, Enabled, Step;
      StageGrows(c, After(c, run[..j - 1]), run[j - 1]);
    }
  }

  ghost predicate EntersReady(c: Config, run: seq<Action>, i: nat)
    requires i < |run|
  {
    After(c, run[..i]).m.state != Ready && After(c, run[..i + 1]).m.state == Ready
  }

  lemma ReadyEnteredOnce(c: Config, run: seq<Action>, i: nat, j: nat)
    requires ValidConfig(c) && Possible(c, run) && i < |run| && j < |run|
    requires EntersReady(c, run, i) && EntersReady(c, run, j)
    ensures i == j
  {
    if i < j {
      EntersReadyFromBelow(c, run, j);
      StageMonotone(c, run, i + 1, j);
    } else if j < i {
      EntersReadyFromBelow(c, run, i);
      StageMonotone(c, run, j + 1, i);
    }
  }

  lemma EntersReadyFromBelow(c: Config, run: seq<Action>, i: nat)
    requires ValidConfig(c) && Possible(c, run) && i < |run| && EntersReady(c, run, i)
    ensures Stage(After(c, run[..i]).m.state) < 3
  {
    RunStep(c, run, i);
    PrefixPossible(c, run, i);
    Reachable(c, run[..i]);
  }

  // Every admission happens in READY, hence none after READY was left.
  lemma NothingAdmittedAfterReady(c: Config, run: seq<Action>, left: nat, j: nat)
    requires ValidConfig(c) && Possible(c, run) && left < j < |run|
    requires After(c, run[..left]).m.state == Ready && After(c, run[..left + 1]).m.state != Ready
    ensures !Admits(c, After(c, run[..j]), run[j])
  {
    StageMonotone(c, run, left, left + 1);
    StageMonotone(c, run, left + 1, j);
  }

  // The runtime is stopped only with no admitted invocation running, and none
  // starts until that stop has ended.
  lemma RuntimeStoppedWhenDrained(c: Config, run: seq<Action>)
    requires ValidConfig(c) && Possible(c, run)
    ensures forall t <- After(c, run).owners :: After(c, run).owners[t] == StoppingRuntime ==> After(c, run).running == {}
  {
    Reachable(c, run);
  }

  ghost predicate NewEpisode(c: Config, run: seq<Action>, k: nat)
    requires k < |run|
  {
    After(c, run[..k]).m.state != Stopping && After(c, run[..k + 1]).m.state == Stopping
  }

  ghost predicate InRuntimeStop(s: System) {
    exists t <- s.owners :: s.owners[t] == StoppingRuntime
  }

  lemma EpisodeStep(c: Config, s: System, a: Action)
    requires ValidConfig(c) && Inv(c, s) && Enabled(s, a)
    requires InRuntimeStop(s) || s.m.state != Stopping
    requires s.m.state == Stopping || Step(c, s, a).m.state != Stopping
    ensures InRuntimeStop(Step(c, s, a)) || Step(c, s, a).m.state != Stopping
  {
    if InRuntimeStop(s) {
      var t :| t in s.owners && s.owners[t] == StoppingRuntime;
      assert !a.DoEndStop? ==> t in Step(c, s, a).owners && Step(c, s, a).owners[t] == StoppingRuntime;
    }
  }

  lemma {:induction false} StoppedUntilNewEpisode(c: Config, run: seq<Action>, i: nat, j: nat)
    requires ValidConfig(c) && Possible(c, run) && i < j <= |run|
    requires run[i].DoCallRuntimeStop?
    requires forall k :: i < k < j ==> !NewEpisode(c, run, k)
    ensures InRuntimeStop(After(c, run[..j])) || After(c, run[..j]).m.state != Stopping
    decreases j
  {
    RunStep(c, run, j - 1);
    PrefixPossible(c, run, j - 1);
    Reachable(c, run[..j - 1]);
    if i == j - 1 {
      assert run[i].task in After(c, run[..j]).owners;
    } else {
      StoppedUntilNewEpisode(c, run, i, j - 1);
      assert !NewEpisode(c, run, j - 1);
      EpisodeStep(c, After(c, run[..j - 1]), run[j - 1]);
    }
  }

  // Between two calls of the runtime's stop a new STOPPING episode has begun.
  lemma OneRuntimeStopPerEpisode(c: Config, run: seq<Action>, i: nat, j: nat)
    requires ValidConfig(c) && Possible(c, run) && i < j < |run|
    requires run[i].DoCallRuntimeStop? && run[j].DoCallRuntimeStop?
    ensures exists k :: i < k < j && NewEpisode(c, run, k)
  {
    if forall k :: i < k < j ==> !NewEpisode(c, run, k) {
      StoppedUntilNewEpisode(c, run, i, j);
      RunStep(c, run, j);
      PrefixPossible(c, run, j);
      Reachable(c, run[..j]);
      assert false;
    }
  }

  // ---------------------------------------------------------------------
  // Who gets in, and that stops can complete
  // ---------------------------------------------------------------------

  predicate HasPlace(c: Config, running: set<Task>) {
    c.maxConcurrency.None? || |running| < c.maxConcurrency.value
  }

  predicate GetsIn(a: Action, task: Task, inputValid: bool) {
    a == DoEnter(task, inputValid) || a == DoWake(task, inputValid)
  }

  lemma OneMore(c: Config, run: seq<Action>, a: Action)
    requires Possible(c, run) && Enabled(After(c, run), a)
    ensures Possible(c, run + [a]) && After(c, run + [a]) == Step(c, After(c, run), a)
  {
    hide Enabled, Step;
    assert (run + [a])[..|run|] == run;
  }

  lemma GetsInStep(c: Config, s: System, a: Action, task: Task, inputValid: bool)
    requires Inv(c, s) && GetsIn(a, task, inputValid) && Enabled(s, a)
    ensures var s' := Step(c, s, a);
            && (task in s'.running <==> s.m.state == Ready && HasPlace(c, s.running) && inputValid)
            && (task in s'.m.waiting <==> !HasPlace(c, s.running) && !c.rejects)
            && (forall t :: t != task ==> (t in s'.running <==> t in s.running) && (t in s'.m.waiting <==> t in s.m.waiting))
  {
    hide StopOwned;
    assert task !in s.running && task !in s.m.waiting;
  }

  // In every reachable state an invocation that enters, or wakes up, runs
  // afterwards exactly if the agent is READY, has a place free and the input is
  // valid. Without a place it waits, or is turned away where the policy rejects.
  lemma AdmittedExactly(c: Config, run: seq<Action>, a: Action, task: Task, inputValid: bool)
    requires ValidConfig(c) && Possible(c, run) && GetsIn(a, task, inputValid) && Enabled(After(c, run), a)
    ensures var s, s' := After(c, run), After(c, run + [a]);
            && Possible(c, run + [a])
            && (task in s'.running <==> s.m.state == Ready && HasPlace(c, s.running) && inputValid)
            && (task in s'.m.waiting <==> !HasPlace(c, s.running) && !c.rejects)
            && (forall t :: t != task ==> (t in s'.running <==> t in s.running) && (t in s'.m.waiting <==> t in s.m.waiting))
  {
    Reachable(c, run);
    GetsInStep(c, After(c, run), a, task, inputValid);
    OneMore(c, run, a);
    hide *;
  }

  // Whatever runs got in by an action of its own in a READY state with a place
  // free, on valid input, and has not left since.
  lemma {:induction false} RunningGotIn(c: Config, run: seq<Action>, task: Task) returns (i: nat)
    requires ValidConfig(c) && Possible(c, run) && task in After(c, run).running
    ensures i < |run| && GetsIn(run[i], task, true)
    ensures After(c, run[..i]).m.state == Ready && HasPlace(c, After(c, run[..i]).running)
    ensures forall k :: i < k < |run| ==> run[k] != DoLeave(task)
  {
    hide *;
    NewHasNoneRunning(c, run, task);
    var n := |run| - 1;
    var before := run[..n];
    var s := After(c, before);
    PrefixPossible(c, run, n);
    Reachable(c, before);
    RunStep(c, run, n);
    assert run[..n + 1] == run;
    if task in s.running {
      StaysIn(c, s, run[n], task);
      i := RunningGotIn(c, before, task);
      assert before[..i] == run[..i];
    } else {
      i := n;
      GotInNow(c, s, run[n], task);
    }
  }

  lemma NewHasNoneRunning(c: Config, run: seq<Action>, task: Task)
    requires task in After(c, run).running
    ensures run != []
  {
  }

  lemma StaysIn(c: Config, s: System, a: Action, task: Task)
    requires Enabled(s, a) && task in s.running && task in Step(c, s, a).running
    ensures a != DoLeave(task)
  {
  }

  lemma GotInNow(c: Config, s: System, a: Action, task: Task)
    requires Inv(c, s) && Enabled(s, a) && task !in s.running && task in Step(c, s, a).running
    ensures GetsIn(a, task, true) && s.m.state == Ready && HasPlace(c, s.running)
  {
  }

  // A new agent can be brought to READY.
  lemma CanBecomeReady(c: Config)
    ensures var run := [DoInitialize(true), DoStart(true)]; Possible(c, run) && After(c, run).m.state == Ready
  {
    OneMore(c, [], DoInitialize(true));
    assert [] + [DoInitialize(true)] == [DoInitialize(true)];
    OneMore(c, [DoInitialize(true)], DoStart(true));
    assert [DoInitialize(true)] + [DoStart(true)] == [DoInitialize(true), DoStart(true)];
  }

  // A stop begins a shutdown from every state but CREATED, STOPPED and STOPPING,
  // and joins one that is under way.
  lemma StopBegins(c: Config, run: seq<Action>, task: Task)
    requires ValidConfig(c) && Possible(c, run) && Enabled(After(c, run), DoBeginStop(task))
    ensures var s, s' := After(c, run), After(c, run + [DoBeginStop(task)]);
            && Possible(c, run + [DoBeginStop(task)])
            && (task in s'.owners <==> s.m.state !in {Created, Stopped, Stopping})
            && (task in s'.others <==> s.m.state == Stopping)
            && (s'.m.state == Stopping <==> s.m.state !in {Created, Stopped})
            && s'.running == s.running
  {
    OneMore(c, run, DoBeginStop(task));
    hide After, Possible;
  }

  // What finishes a shutdown: what runs leaves, the runtime is stopped, and the
  // owner says so.
  ghost predicate Finishing(a: Action) {
    a.DoLeave? || a.DoCallRuntimeStop? || (a.DoEndStop? && a.stopped)
  }

  function Undone(s: System): nat {
    if exists t <- s.owners :: s.owners[t] == StoppingRuntime then 0 else |s.running| + 1
  }

  lemma NextInStop(c: Config, s: System) returns (a: Action)
    requires Inv(c, s) && s.m.state == Stopping
    ensures Enabled(s, a) && Finishing(a)
    ensures a.DoEndStop? ==> Step(c, s, a).m.state == Stopped && Step(c, s, a).m.stopComplete
    ensures !a.DoEndStop? ==> Step(c, s, a).m.state == Stopping && Undone(Step(c, s, a)) < Undone(s)
  {
    var t :| t in s.owners;
    if s.owners[t] == StoppingRuntime {
      a := DoEndStop(t, true);
    } else if s.running == {} {
      a := DoCallRuntimeStop(t);
      assert Step(c, s, a).owners[t] == StoppingRuntime;
    } else {
      var w :| w in s.running;
      a := DoLeave(w);
      assert s.running == s.running - {w} + {w};
    }
  }

  // From every reachable STOPPING state the shutdown can be completed by what
  // runs leaving and the owner going on; whoever else waits for it can go then.
  lemma {:induction false} StopCompletes(c: Config, run: seq<Action>) returns (more: seq<Action>)
    requires ValidConfig(c) && Possible(c, run) && After(c, run).m.state == Stopping
    ensures Possible(c, run + more) && After(c, run + more).m.state == Stopped && After(c, run + more).m.stopComplete
    ensures forall a <- more :: Finishing(a)
    decreases Undone(After(c, run))
  {
    hide *;
    Reachable(c, run);
    var a := NextInStop(c, After(c, run));
    OneMore(c, run, a);
    if a.DoEndStop? {
      more := [a];
    } else {
      var rest := StopCompletes(c, run + [a]);
      more := [a] + rest;
      assert run + more == run + [a] + rest;
    }
  }
}
