// The protocol that keeps resumption safe, stated over the history of atomic
// actions on the checkpoint and approval stores by any number of attempts that
// run at the same time. An action is allowed by what its own attempt knows; any
// prefix of a history is the state a crash may leave behind.
module ReplayLedger {
  import opened Wrappers
  import opened AgentModel

  type Who = nat

  datatype Session = Session(version: nat, messages: seq<Message>)

  // Where an attempt takes its transcript from: its session's history, a stored
  // checkpoint, or a pending approval.
  datatype Origin =
    | FromRequest(history: seq<Message>)
    | FromCheckpoint(id: Id, record: Checkpoint)
    | FromApproval(id: Id, approval: Approval, decision: Decision)

  // What an attempt does once it has begun. `Ended` is its end for whatever
  // reason, a dead process included.
  datatype Act =
    | SessionRead(history: seq<Message>)
    | ModelCalled
    | Claimed(key: string)
    | Started(request: ToolRequest, position: nat)
    | ReplayEnded
    | Saved(checkpoint: Checkpoint)
    | Deleted
    | Paused(id: Id, approval: Approval)
    | SessionStored(session: Id, stored: Session)
    | Ended

  // `Begun` names the checkpoint id the attempt works under. The last five are
  // not the work of this agent's attempts, except that loading a session that is
  // missing writes an empty one.
  datatype Event =
    | Begun(who: Who, cid: Id, origin: Origin)
    | By(who: Who, act: Act)
    | ApprovalExpired(id: Id)
    | CheckpointDropped(id: Id)
    | ForeignCheckpoint(id: Id, checkpoint: Checkpoint)
    | ForeignApproval(id: Id, approval: Approval)
    | SessionWritten(id: Id, stored: Option<Session>)

  // A chain is a fresh attempt together with everything later resumed from it:
  // the non-read-only tool bodies begun for it, and the length of the history
  // tail its transcript was built on.
  datatype Chain = Chain(started: seq<Call>, tail: nat)

  // What an attempt, or a record it stored, knows of its chain: the tool bodies
  // it accounts for, the waves that approvals let through, and the tail.
  datatype View = View(begun: seq<Call>, replayed: set<seq<ToolRequest>>, tail: nat)

  // An attempt in progress. `exposed`: a record of its own may be stored under
  // `cid`. `approved` is the approval it replays and `next` the first position
  // of that wave not yet executed; `claim` a granted key not yet used; `tail`
  // the tail length it works with, which a continuation takes from its session.
  datatype Attempt = Attempt(
    chain: nat, cid: Id, exposed: bool, view: View,
    approved: Option<Approval>, next: nat, claim: Option<string>,
    iterations: nat, continued: bool, tail: nat)

  // A stored record of this agent, with the chain and the view it belongs to,
  // or one that another agent stored.
  datatype Owned<T> = Owned(record: T, chain: nat, view: View) | Foreign(record: T)

  datatype Ledger = Ledger(
    checkpoints: map<Id, Owned<Checkpoint>>,
    approvals: map<Id, Owned<Approval>>,
    chains: seq<Chain>,
    attempts: map<Who, Attempt>,
    grants: multiset<string>,
    starts: multiset<string>)

  const EmptyLedger := Ledger(map[], map[], [], map[], multiset{}, multiset{})

  // ---------------------------------------------------------------------
  // What each action does
  // ---------------------------------------------------------------------

  // The attempt that a Begun event adds, if the record it asks for is there.
  function Begin(l: Ledger, cid: Id, origin: Origin): Option<Attempt> {
    match origin
    case FromRequest(history) =>
      var tail := |HistoryTail(history)|;
      Some(Attempt(|l.chains|, cid, false, View([], {}, tail), None, 0, None, 0, false, tail))
    case FromCheckpoint(id, record) =>
      if id !in l.checkpoints || l.checkpoints[id].Foreign? then None
      else
        var o := l.checkpoints[id];
        Some(Attempt(o.chain, cid, true, o.view, None, 0, None, record.iterations, false, record.historyTail))
    case FromApproval(id, approval, decision) =>
      if id !in l.approvals || l.approvals[id].Foreign? then None
      else
        var o := l.approvals[id];
        Some(Attempt(o.chain, cid, false, o.view.(replayed := o.view.replayed + {approval.requests}),
                     if decision.Approve? then Some(approval) else None, 0, None, approval.iterations, true, 0))
  }

  predicate Ends(act: Act) {
    act.Paused? || act.Ended?
  }

  // The tool body that an action begins, if it may have an effect.
  function Effects(agent: Agent, act: Act): seq<Call> {
    if act.Started? && HasEffect(agent, act.request.name) then [Call(act.request.name, act.request.id)] else []
  }

  // The attempt after one of its actions.
  function Moved(agent: Agent, a: Attempt, act: Act): Attempt {
    match act
    case SessionRead(history) => a.(tail := if a.continued then |HistoryTail(history)| else a.tail)
    case ModelCalled => a.(iterations := a.iterations + 1)
    case Claimed(key) => a.(claim := Some(key))
    case Started(request, position) =>
      a.(next := if a.approved.Some? then position + 1 else a.next,
         view := a.view.(begun := a.view.begun + Effects(agent, act)),
         claim := if Effects(agent, act) == [] then a.claim else None)
    case ReplayEnded => a.(approved := None, next := 0)
    case Saved(_) => a.(exposed := true)
    case Deleted => a.(exposed := false)
    case _ => a
  }

  function CheckpointsAfter(l: Ledger, a: Attempt, act: Act): map<Id, Owned<Checkpoint>> {
    match act
    case Saved(checkpoint) => l.checkpoints[a.cid := Owned(checkpoint, a.chain, a.view)]
    case Deleted => l.checkpoints - {a.cid}
    case Paused(_, _) => l.checkpoints - {a.cid}
    case _ => l.checkpoints
  }

  function ApprovalsAfter(l: Ledger, a: Attempt, act: Act): map<Id, Owned<Approval>> {
    if act.Paused? then l.approvals[act.id := Owned(act.approval, a.chain, a.view)] else l.approvals
  }

  function ChainsAfter(agent: Agent, l: Ledger, a: Attempt, act: Act): seq<Chain> {
    if a.chain < |l.chains|
    then l.chains[a.chain := l.chains[a.chain].(started := l.chains[a.chain].started + Effects(agent, act))]
    else l.chains
  }

  function AttemptsAfter(agent: Agent, l: Ledger, who: Who, a: Attempt, act: Act): map<Who, Attempt> {
    if Ends(act) then l.attempts - {who} else l.attempts[who := Moved(agent, a, act)]
  }

  function GrantsAfter(l: Ledger, act: Act): multiset<string> {
    if act.Claimed? then l.grants + multiset{act.key} else l.grants
  }

  function StartsAfter(agent: Agent, l: Ledger, act: Act): multiset<string> {
    if Effects(agent, act) != [] && agent.registry && act.request.key.Some?
    then l.starts + multiset{act.request.key.value}
    else l.starts
  }

  function Apply(agent: Agent, l: Ledger, e: Event): Ledger {
    match e
    case Begun(who, cid, origin) =>
      var begun := Begin(l, cid, origin);
      if begun.None? then l
      else
        l.(attempts := l.attempts[who := begun.value],
           chains := if origin.FromRequest? then l.chains + [Chain([], |HistoryTail(origin.history)|)] else l.chains,
           approvals := if origin.FromApproval? then l.approvals - {origin.id} else l.approvals)
    case By(who, act) =>
      if who !in l.attempts then l
      else
        var a := l.attempts[who];
        Ledger(CheckpointsAfter(l, a, act), ApprovalsAfter(l, a, act), ChainsAfter(agent, l, a, act),
               AttemptsAfter(agent, l, who, a, act), GrantsAfter(l, act), StartsAfter(agent, l, act))
    case ApprovalExpired(id) => l.(approvals := l.approvals - {id})
    case CheckpointDropped(id) => l.(checkpoints := l.checkpoints - {id})
    case ForeignCheckpoint(id, checkpoint) => l.(checkpoints := l.checkpoints[id := Foreign(checkpoint)])
    case ForeignApproval(id, approval) => l.(approvals := l.approvals[id := Foreign(approval)])
    case SessionWritten(_, _) => l
  }

  // ---------------------------------------------------------------------
  // When each action is allowed
  // ---------------------------------------------------------------------

  // A record that accounts for everything its view has begun, over a complete
  // transcript, with an iteration left.
  predicate CompleteCheckpoint(agent: Agent, v: View, record: Checkpoint) {
    && record.agentId == agent.id
    && EffectCalls(record.results) == v.begun
    && record.iterations < agent.maxIterations
    && Shaped(record.messages, v.tail, v.replayed)
  }

  predicate CompleteApproval(agent: Agent, v: View, record: Approval) {
    && record.agentId == agent.id
    && EffectCalls(record.results) == v.begun
    && record.iterations < agent.maxIterations
    && Dangling(record.messages, record.requests, v.tail, v.replayed)
  }

  predicate AllowedStart(agent: Agent, a: Attempt, request: ToolRequest, position: nat) {
    && (if a.approved.Some?
        then a.next <= position < |a.approved.value.requests| && a.approved.value.requests[position] == request
        else a.iterations < agent.maxIterations)
    && (HasEffect(agent, request.name) ==> !a.exposed)
    && Permitted(agent, request, a.approved.Some?)
    && (agent.registry && HasEffect(agent, request.name) && request.key.Some? ==> a.claim == request.key)
  }

  predicate AllowedBegin(agent: Agent, l: Ledger, cid: Id, origin: Origin) {
    match origin
    case FromRequest(_) => true
    case FromCheckpoint(id, record) =>
      cid == id && id in l.checkpoints && l.checkpoints[id].record == record && record.agentId == agent.id
    case FromApproval(id, approval, _) =>
      id in l.approvals && l.approvals[id].record == approval && approval.agentId == agent.id
  }

  // What an attempt may do next, by what it knows itself.
  predicate MayAct(agent: Agent, a: Attempt, act: Act) {
    match act
    case ModelCalled => a.iterations < agent.maxIterations
    case Claimed(_) => a.claim.None?
    case Started(request, position) => AllowedStart(agent, a, request, position)
    case Saved(checkpoint) =>
      && agent.checkpointing && a.approved.None?
      && checkpoint.iterations == a.iterations && checkpoint.historyTail == a.tail
      && CompleteCheckpoint(agent, a.view, checkpoint)
    case Paused(_, approval) =>
      a.approved.None? && approval.iterations == a.iterations && CompleteApproval(agent, a.view, approval)
    case _ => true
  }

  predicate Allowed(agent: Agent, l: Ledger, e: Event) {
    match e
    case Begun(who, cid, origin) => who !in l.attempts && AllowedBegin(agent, l, cid, origin)
    case By(who, act) => who in l.attempts && MayAct(agent, l.attempts[who], act)
    case ApprovalExpired(_) => true
    case CheckpointDropped(_) => true
    case ForeignCheckpoint(_, checkpoint) => agent.checkpointing && checkpoint.agentId != agent.id
    case ForeignApproval(_, approval) => approval.agentId != agent.id
    case SessionWritten(_, _) => true
  }

  // ---------------------------------------------------------------------
  // Histories
  // ---------------------------------------------------------------------

  function Replay(agent: Agent, log: seq<Event>): Ledger {
    if log == [] then EmptyLedger
    else Apply(agent, Replay(agent, log[..|log| - 1]), log[|log| - 1])
  }

  // What an event writes to the session store.
  predicate WritesSession(e: Event) {
    e.SessionWritten? || (e.By? && e.act.SessionStored?)
  }

  // The session store as the history leaves it.
  function SessionsAfter(log: seq<Event>): map<Id, Session> {
    if log == [] then map[]
    else
      var before := SessionsAfter(log[..|log| - 1]);
      match log[|log| - 1]
      case By(_, SessionStored(id, stored)) => before[id := stored]
      case SessionWritten(id, Some(stored)) => before[id := stored]
      case SessionWritten(id, None) => before - {id}
      case _ => before
  }

  lemma SessionsStep(log: seq<Event>, e: Event)
    ensures !WritesSession(e) ==> SessionsAfter(log + [e]) == SessionsAfter(log)
    ensures e.By? && e.act.SessionStored? ==> SessionsAfter(log + [e]) == SessionsAfter(log)[e.act.session := e.act.stored]
    ensures e.SessionWritten? ==>
              SessionsAfter(log + [e]) == if e.stored.Some? then SessionsAfter(log)[e.id := e.stored.value] else SessionsAfter(log) - {e.id}
  {
    assert (log + [e])[..|log|] == log;
  }

  predicate Accepted(agent: Agent, log: seq<Event>) {
    log == [] ||
    (&& Accepted(agent, log[..|log| - 1])
     && Allowed(agent, Replay(agent, log[..|log| - 1]), log[|log| - 1]))
  }

  lemma Extend(agent: Agent, log: seq<Event>, e: Event)
    ensures Replay(agent, log + [e]) == Apply(agent, Replay(agent, log), e)
    ensures Accepted(agent, log + [e]) <==> Accepted(agent, log) && Allowed(agent, Replay(agent, log), e)
  {
    assert (log + [e])[..|log|] == log;
  }

  lemma LastStep(agent: Agent, log: seq<Event>)
    requires Accepted(agent, log) && log != []
    ensures Accepted(agent, log[..|log| - 1])
    ensures Allowed(agent, Replay(agent, log[..|log| - 1]), log[|log| - 1])
    ensures Replay(agent, log) == Apply(agent, Replay(agent, log[..|log| - 1]), log[|log| - 1])
  {
  }

  lemma {:induction false} PrefixAccepted(agent: Agent, log: seq<Event>, i: nat)
    requires Accepted(agent, log) && i <= |log|
    ensures Accepted(agent, log[..i])
    decreases |log|
  {
    if i < |log| {
      PrefixAccepted(agent, log[..|log| - 1], i);
      assert log[..|log| - 1][..i] == log[..i];
    } else {
      assert log[..i] == log;
    }
  }

  // Event i of a history was allowed in the state its prefix reached.
  lemma StepAt(agent: Agent, log: seq<Event>, i: nat)
    requires Accepted(agent, log) && i < |log|
    ensures Accepted(agent, log[..i]) && Accepted(agent, log[..i + 1])
    ensures Allowed(agent, Replay(agent, log[..i]), log[i])
    ensures Replay(agent, log[..i + 1]) == Apply(agent, Replay(agent, log[..i]), log[i])
  {
    PrefixAccepted(agent, log, i + 1);
    PrefixAccepted(agent, log, i);
    assert log[..i + 1][..i] == log[..i];
    LastStep(agent, log[..i + 1]);
  }

  // ---------------------------------------------------------------------
  // What every history keeps, however its attempts overlap
  // ---------------------------------------------------------------------

  ghost predicate KnownChain(l: Ledger, chain: nat, v: View) {
    chain < |l.chains| && v.tail == l.chains[chain].tail
  }

  // Records of this agent are complete for their view; all others are foreign.
  ghost predicate CheckpointKept(agent: Agent, l: Ledger, o: Owned<Checkpoint>) {
    if o.Foreign? then o.record.agentId != agent.id
    else
      && KnownChain(l, o.chain, o.view)
      && CompleteCheckpoint(agent, o.view, o.record)
      && (o.view.replayed == {} ==> o.record.historyTail == o.view.tail)
  }

  ghost predicate ApprovalKept(agent: Agent, l: Ledger, o: Owned<Approval>) {
    if o.Foreign? then o.record.agentId != agent.id
    else KnownChain(l, o.chain, o.view) && CompleteApproval(agent, o.view, o.record)
  }

  // Without an approval in its chain an attempt works with the tail its
  // transcript was built on.
  ghost predicate AttemptKept(agent: Agent, l: Ledger, a: Attempt) {
    && KnownChain(l, a.chain, a.view)
    && a.iterations <= agent.maxIterations
    && (a.continued ==> a.view.replayed != {})
    && (a.view.replayed == {} ==> a.tail == a.view.tail)
    && (a.exposed ==> a.approved.None?)
    && (a.approved.Some? ==> a.approved.value.agentId == agent.id && a.approved.value.requests in a.view.replayed)
  }

  // The attempts that hold a grant of the key they have not used yet.
  function Holding(l: Ledger, key: string): set<Who> {
    set who | who in l.attempts && l.attempts[who].claim == Some(key)
  }

  ghost predicate GrantsCover(l: Ledger) {
    forall key: string :: l.starts[key] + |Holding(l, key)| <= l.grants[key]
  }

  ghost predicate Kept(agent: Agent, l: Ledger) {
    && (forall id <- l.checkpoints :: CheckpointKept(agent, l, l.checkpoints[id]))
    && (forall id <- l.approvals :: ApprovalKept(agent, l, l.approvals[id]))
    && (forall who <- l.attempts :: AttemptKept(agent, l, l.attempts[who]))
    && (!agent.checkpointing ==> l.checkpoints == map[])
    && GrantsCover(l)
  }

  // Chains stay, and with them the tails they were built on.
  lemma StepTails(agent: Agent, l: Ledger, e: Event, chain: nat, v: View)
    requires KnownChain(l, chain, v)
    ensures KnownChain(Apply(agent, l, e), chain, v)
  {
    hide Effects;
  }

  lemma StepKeepsCheckpoints(agent: Agent, l: Ledger, e: Event)
    requires Kept(agent, l) && Allowed(agent, l, e)
    ensures var l' := Apply(agent, l, e);
            && (forall id <- l'.checkpoints :: CheckpointKept(agent, l', l'.checkpoints[id]))
            && (!agent.checkpointing ==> l'.checkpoints == map[])
  {
    hide CompleteCheckpoint, CompleteApproval, AllowedStart, Effects, GrantsCover,
      ApprovalsAfter, ChainsAfter, AttemptsAfter, GrantsAfter, StartsAfter;
    var l' := Apply(agent, l, e);
    forall id | id in l'.checkpoints
      ensures CheckpointKept(agent, l', l'.checkpoints[id])
    {
      var o := l'.checkpoints[id];
      if id in l.checkpoints && l.checkpoints[id] == o {
        assert CheckpointKept(agent, l, o);
      } else if e.By? {
        assert AttemptKept(agent, l, l.attempts[e.who]);
      }
      if o.Owned? {
        StepTails(agent, l, e, o.chain, o.view);
      }
    }
  }

  lemma StepKeepsApprovals(agent: Agent, l: Ledger, e: Event)
    requires Kept(agent, l) && Allowed(agent, l, e)
    ensures var l' := Apply(agent, l, e); forall id <- l'.approvals :: ApprovalKept(agent, l', l'.approvals[id])
  {
    hide CompleteCheckpoint, CompleteApproval, AllowedStart, Effects, GrantsCover,
      CheckpointsAfter, ChainsAfter, AttemptsAfter, GrantsAfter, StartsAfter;
    var l' := Apply(agent, l, e);
    forall id | id in l'.approvals
      ensures ApprovalKept(agent, l', l'.approvals[id])
    {
      var o := l'.approvals[id];
      if id in l.approvals && l.approvals[id] == o {
        assert ApprovalKept(agent, l, o);
      } else if e.By? {
        assert AttemptKept(agent, l, l.attempts[e.who]);
      }
      if o.Owned? {
        StepTails(agent, l, e, o.chain, o.view);
      }
    }
  }

  lemma MovedIsKept(agent: Agent, l: Ledger, a: Attempt, act: Act)
    requires AttemptKept(agent, l, a) && MayAct(agent, a, act)
    ensures AttemptKept(agent, l, Moved(agent, a, act))
  {
    hide AllowedStart, Effects, CompleteCheckpoint, CompleteApproval;
  }

  lemma BegunIsKept(agent: Agent, l: Ledger, e: Event)
    requires Kept(agent, l) && Allowed(agent, l, e) && e.Begun?
    ensures var begun := Begin(l, e.cid, e.origin);
            begun.Some? && AttemptKept(agent, Apply(agent, l, e), begun.value)
  {
    match e.origin
    case FromRequest(_) =>
    case FromCheckpoint(id, _) => assert CheckpointKept(agent, l, l.checkpoints[id]);
    case FromApproval(id, _, _) => assert ApprovalKept(agent, l, l.approvals[id]);
  }

  // Who an attempt after an event is: one that began, one that moved, or one
  // that was not concerned.
  lemma AttemptsStep(agent: Agent, l: Ledger, e: Event, who: Who)
    requires Allowed(agent, l, e) && who in Apply(agent, l, e).attempts
    ensures var a := Apply(agent, l, e).attempts[who];
            if e.Begun? && e.who == who then Begin(l, e.cid, e.origin) == Some(a)
            else
              && who in l.attempts
              && if e.By? && e.who == who then !Ends(e.act) && a == Moved(agent, l.attempts[who], e.act)
                 else a == l.attempts[who]
  {
    hide Begin, Moved, MayAct, CheckpointsAfter, ApprovalsAfter, ChainsAfter, GrantsAfter, StartsAfter;
  }

  lemma StepKeepsAttempts(agent: Agent, l: Ledger, e: Event)
    requires Kept(agent, l) && Allowed(agent, l, e)
    ensures var l' := Apply(agent, l, e); forall who <- l'.attempts :: AttemptKept(agent, l', l'.attempts[who])
  {
    var l' := Apply(agent, l, e);
    forall who | who in l'.attempts
      ensures AttemptKept(agent, l', l'.attempts[who])
    {
      AttemptsStep(agent, l, e, who);
      if e.Begun? && e.who == who {
        BegunIsKept(agent, l, e);
      } else {
        assert AttemptKept(agent, l, l.attempts[who]);
        if e.By? && e.who == who {
          MovedIsKept(agent, l, l.attempts[who], e.act);
        }
        StepTails(agent, l, e, l'.attempts[who].chain, l'.attempts[who].view);
      }
      hide Apply, Kept, Moved, MayAct, Begin;
    }
  }

  lemma Fewer(a: set<Who>, b: set<Who>)
    requires a <= b
    ensures |a| <= |b|
  {
    assert b == a + (b - a);
  }

  lemma HoldingOne(agent: Agent, l: Ledger, e: Event, key: string, who: Who)
    requires Allowed(agent, l, e) && who in Holding(Apply(agent, l, e), key)
    ensures if e.By? && e.who == who then e.act == Claimed(key) || (!StartsKeyed(agent, e, key) && who in Holding(l, key))
            else who in Holding(l, key)
  {
    AttemptsStep(agent, l, e, who);
    hide Apply, CompleteCheckpoint, CompleteApproval, Permitted;
  }

  lemma StarterHolds(agent: Agent, l: Ledger, e: Event, key: string)
    requires Allowed(agent, l, e) && StartsKeyed(agent, e, key)
    ensures e.who in Holding(l, key)
  {
    hide CompleteCheckpoint, CompleteApproval, Permitted;
  }

  // Claims and starts hand the attempts' unused grants on.
  lemma HoldingStep(agent: Agent, l: Ledger, e: Event, key: string)
    requires Allowed(agent, l, e)
    ensures var l' := Apply(agent, l, e);
            if e.By? && e.act == Claimed(key) then Holding(l', key) <= Holding(l, key) + {e.who}
            else if StartsKeyed(agent, e, key) then Holding(l', key) <= Holding(l, key) - {e.who} && e.who in Holding(l, key)
            else Holding(l', key) <= Holding(l, key)
  {
    var l' := Apply(agent, l, e);
    forall who | who in Holding(l', key)
      ensures if e.By? && e.who == who then e.act == Claimed(key) || (!StartsKeyed(agent, e, key) && who in Holding(l, key))
              else who in Holding(l, key)
    {
      HoldingOne(agent, l, e, key, who);
    }
    if StartsKeyed(agent, e, key) {
      StarterHolds(agent, l, e, key);
      NoClaim(agent, e, key);
    }
    hide Apply, Allowed, Holding, StartsKeyed;
  }

  // A keyed body is begun under the registry.
  predicate StartsKeyed(agent: Agent, e: Event, key: string) {
    e.By? && Effects(agent, e.act) != [] && agent.registry && e.act.request.key == Some(key)
  }

  lemma CountsStep(agent: Agent, l: Ledger, e: Event, key: string)
    requires Allowed(agent, l, e)
    ensures var l' := Apply(agent, l, e);
            && l'.grants[key] == l.grants[key] + (if e.By? && e.act == Claimed(key) then 1 else 0)
            && l'.starts[key] == l.starts[key] + (if StartsKeyed(agent, e, key) then 1 else 0)
  {
    hide Begin, Effects, MayAct, CheckpointsAfter, ApprovalsAfter, ChainsAfter, AttemptsAfter;
  }

  lemma StepKeepsGrants(agent: Agent, l: Ledger, e: Event)
    requires GrantsCover(l) && Allowed(agent, l, e)
    ensures GrantsCover(Apply(agent, l, e))
  {
    var l' := Apply(agent, l, e);
    forall key: string
      ensures l'.starts[key] + |Holding(l', key)| <= l'.grants[key]
    {
      HoldingStep(agent, l, e, key);
      CountsStep(agent, l, e, key);
      hide Apply, Allowed, Holding, StartsKeyed;
      if e.By? && e.act == Claimed(key) {
        NoStart(agent, e, key);
        Fewer(Holding(l', key), Holding(l, key) + {e.who});
      } else if StartsKeyed(agent, e, key) {
        Fewer(Holding(l', key), Holding(l, key) - {e.who});
      } else {
        Fewer(Holding(l', key), Holding(l, key));
      }
    }
  }

  lemma NoClaim(agent: Agent, e: Event, key: string)
    requires StartsKeyed(agent, e, key)
    ensures e.By? && !e.act.Claimed?
  {
  }

  lemma NoStart(agent: Agent, e: Event, key: string)
    requires e.By? && e.act.Claimed?
    ensures !StartsKeyed(agent, e, key)
  {
  }

  lemma StepKeeps(agent: Agent, l: Ledger, e: Event)
    requires Kept(agent, l) && Allowed(agent, l, e)
    ensures Kept(agent, Apply(agent, l, e))
  {
    StepKeepsCheckpoints(agent, l, e);
    StepKeepsApprovals(agent, l, e);
    StepKeepsAttempts(agent, l, e);
    StepKeepsGrants(agent, l, e);
    hide Apply, Allowed, CheckpointKept, ApprovalKept, AttemptKept, GrantsCover;
  }

  lemma {:induction false} AcceptedIsKept(agent: Agent, log: seq<Event>)
    requires Accepted(agent, log)
    ensures Kept(agent, Replay(agent, log))
  {
    if log != [] {
      hide Allowed, Apply, Kept;
      LastStep(agent, log);
      AcceptedIsKept(agent, log[..|log| - 1]);
      StepKeeps(agent, Replay(agent, log[..|log| - 1]), log[|log| - 1]);
    }
  }
}
