// What every accepted history of the agent loop guarantees, for any number of
// attempts that overlap in any way, at every point where a crash may cut it.
module ReplayTheorems {
  import opened Wrappers
  import opened AgentModel
  import opened ReplayLedger

  // ---------------------------------------------------------------------
  // Iterations
  // ---------------------------------------------------------------------

  // Along any chain of pauses and resumes the count never passes the limit,
  // and whatever can be resumed has an iteration left.
  lemma IterationsBounded(agent: Agent, log: seq<Event>, crash: nat)
    requires Accepted(agent, log) && crash <= |log|
    ensures var l := Replay(agent, log[..crash]);
            && (forall who <- l.attempts :: l.attempts[who].iterations <= agent.maxIterations)
            && (forall id <- l.checkpoints :: l.checkpoints[id].record.agentId == agent.id ==>
                  l.checkpoints[id].record.iterations < agent.maxIterations)
            && (forall id <- l.approvals :: l.approvals[id].record.agentId == agent.id ==>
                  l.approvals[id].record.iterations < agent.maxIterations)
  {
    PrefixAccepted(agent, log, crash);
    AcceptedIsKept(agent, log[..crash]);
    hide Replay, Accepted, Shaped, Dangling, GrantsCover;
    var l := Replay(agent, log[..crash]);
    forall who | who in l.attempts ensures AttemptKept(agent, l, l.attempts[who]) {}
    forall id | id in l.checkpoints ensures CheckpointKept(agent, l, l.checkpoints[id]) {}
    forall id | id in l.approvals ensures ApprovalKept(agent, l, l.approvals[id]) {}
  }

  // The model calls of `who` since its last attempt began.
  function CallsSinceBegun(log: seq<Event>, who: Who): nat {
    if log == [] then 0
    else
      var e := log[|log| - 1];
      if e.Begun? && e.who == who then 0
      else CallsSinceBegun(log[..|log| - 1], who) + (if e == By(who, ModelCalled) then 1 else 0)
  }

  lemma CallsStep(agent: Agent, l: Ledger, e: Event, who: Who)
    requires Allowed(agent, l, e) && who in Apply(agent, l, e).attempts && !(e.Begun? && e.who == who)
    ensures who in l.attempts
    ensures Apply(agent, l, e).attempts[who].iterations == l.attempts[who].iterations + (if e == By(who, ModelCalled) then 1 else 0)
  {
    AttemptsStep(agent, l, e, who);
    hide Apply, MayAct, Effects;
  }

  lemma {:induction false} CallsCounted(agent: Agent, log: seq<Event>, who: Who)
    requires Accepted(agent, log) && who in Replay(agent, log).attempts
    ensures CallsSinceBegun(log, who) <= Replay(agent, log).attempts[who].iterations
  {
    if log != [] && !(log[|log| - 1].Begun? && log[|log| - 1].who == who) {
      LastStep(agent, log);
      hide Apply, Allowed;
      CallsStep(agent, Replay(agent, log[..|log| - 1]), log[|log| - 1], who);
      CallsCounted(agent, log[..|log| - 1], who);
    }
  }

  // One attempt calls the model at most maxIterations times, whatever it was
  // resumed from.
  lemma AttemptTerminates(agent: Agent, log: seq<Event>, who: Who)
    requires Accepted(agent, log) && who in Replay(agent, log).attempts
    ensures CallsSinceBegun(log, who) <= agent.maxIterations
  {
    CallsCounted(agent, log, who);
    assert log[..|log|] == log;
    IterationsBounded(agent, log, |log|);
  }

  // ---------------------------------------------------------------------
  // Where a chain comes from
  // ---------------------------------------------------------------------

  // Event k is the fresh request that opened chain c.
  ghost predicate Opens(agent: Agent, log: seq<Event>, k: nat, c: nat) {
    && k < |log| && log[k].Begun? && log[k].origin.FromRequest?
    && |Replay(agent, log[..k]).chains| == c
  }

  lemma OpensLonger(agent: Agent, log: seq<Event>, n: nat, k: nat, c: nat)
    requires n <= |log| && Opens(agent, log[..n], k, c)
    ensures Opens(agent, log, k, c)
  {
    assert log[..n][..k] == log[..k];
  }

  // The history tail a chain's transcripts are built on is that of the session
  // when its first attempt began, whatever was resumed since.
  lemma {:induction false} ChainTail(agent: Agent, log: seq<Event>, c: nat) returns (k: nat)
    requires Accepted(agent, log) && c < |Replay(agent, log).chains|
    ensures Opens(agent, log, k, c)
    ensures Replay(agent, log).chains[c].tail == |HistoryTail(log[k].origin.history)|
  {
    var n := |log| - 1;
    var before := log[..n];
    LastStep(agent, log);
    if c < |Replay(agent, before).chains| {
      StepTails(agent, Replay(agent, before), log[n], c, View([], {}, Replay(agent, before).chains[c].tail));
      hide Apply, Allowed, Accepted, Replay;
      k := ChainTail(agent, before, c);
      OpensLonger(agent, log, n, k, c);
    } else {
      NewChain(agent, Replay(agent, before), log[n]);
      k := n;
    }
  }

  lemma NewChain(agent: Agent, l: Ledger, e: Event)
    requires Allowed(agent, l, e) && |Apply(agent, l, e).chains| > |l.chains|
    ensures e.Begun? && e.origin.FromRequest? && |Apply(agent, l, e).chains| == |l.chains| + 1
    ensures Apply(agent, l, e).chains[|l.chains|].tail == |HistoryTail(e.origin.history)|
  {
    hide AllowedBegin, MayAct;
  }

  // ---------------------------------------------------------------------
  // The approval gate
  // ---------------------------------------------------------------------

  predicate Consumes(e: Event, id: Id) {
    e.Begun? && e.origin.FromApproval? && e.origin.id == id
  }

  predicate Pauses(e: Event, id: Id) {
    e.By? && e.act.Paused? && e.act.id == id
  }

  // An event that stores or removes what is pending under an id.
  predicate Touches(e: Event, id: Id) {
    Pauses(e, id) || Consumes(e, id) || (e.ApprovalExpired? && e.id == id) || (e.ForeignApproval? && e.id == id)
  }

  lemma ApprovalStep(agent: Agent, l: Ledger, e: Event, id: Id)
    requires Allowed(agent, l, e) && id in Apply(agent, l, e).approvals && Apply(agent, l, e).approvals[id].Owned?
    ensures if Pauses(e, id) then Apply(agent, l, e).approvals[id].record == e.act.approval
            else id in l.approvals && l.approvals[id] == Apply(agent, l, e).approvals[id] && !Touches(e, id)
  {
    hide AllowedStart, CompleteCheckpoint, CompleteApproval, CheckpointsAfter, ChainsAfter, AttemptsAfter;
  }

  // Event p stored the approval, and nothing touched it since.
  ghost predicate StoredAt(log: seq<Event>, p: nat, id: Id, approval: Approval) {
    && p < |log| && log[p].By? && log[p].act == Paused(id, approval)
    && forall k :: p < k < |log| ==> !Touches(log[k], id)
  }

  lemma StoredLonger(log: seq<Event>, p: nat, id: Id, approval: Approval)
    requires log != [] && StoredAt(log[..|log| - 1], p, id, approval) && !Touches(log[|log| - 1], id)
    ensures StoredAt(log, p, id, approval)
  {
  }

  lemma {:induction false} StoredSince(agent: Agent, log: seq<Event>, id: Id) returns (p: nat)
    requires Accepted(agent, log) && id in Replay(agent, log).approvals && Replay(agent, log).approvals[id].Owned?
    ensures StoredAt(log, p, id, Replay(agent, log).approvals[id].record)
  {
    var n := |log| - 1;
    LastStep(agent, log);
    hide Apply, Allowed;
    ApprovalStep(agent, Replay(agent, log[..n]), log[n], id);
    if Pauses(log[n], id) {
      p := n;
    } else {
      p := StoredSince(agent, log[..n], id);
      StoredLonger(log, p, id, Replay(agent, log).approvals[id].record);
    }
  }

  // The attempt begins anew, ends, or has replayed its wave.
  predicate LeavesReplay(e: Event, who: Who) {
    (e.Begun? && e.who == who) || (e.By? && e.who == who && (Ends(e.act) || e.act.ReplayEnded?))
  }

  // Since event b `who` replays the approval that event p stored.
  ghost predicate ApprovedAt(agent: Agent, log: seq<Event>, who: Who, p: nat, b: nat, approval: Approval) {
    && b < |log| && log[b].Begun? && log[b].who == who
    && log[b].origin.FromApproval? && log[b].origin.approval == approval && log[b].origin.decision.Approve?
    && approval.agentId == agent.id
    && StoredAt(log[..b], p, log[b].origin.id, approval)
    && forall k :: b < k < |log| ==> !LeavesReplay(log[k], who)
  }

  lemma ApprovedLonger(agent: Agent, log: seq<Event>, who: Who, p: nat, b: nat, approval: Approval)
    requires log != [] && ApprovedAt(agent, log[..|log| - 1], who, p, b, approval) && !LeavesReplay(log[|log| - 1], who)
    ensures ApprovedAt(agent, log, who, p, b, approval)
  {
    assert log[..|log| - 1][..b] == log[..b];
  }

  lemma ReplayStep(agent: Agent, l: Ledger, e: Event, who: Who)
    requires Allowed(agent, l, e) && who in Apply(agent, l, e).attempts && Apply(agent, l, e).attempts[who].approved.Some?
    requires !(e.Begun? && e.who == who)
    ensures who in l.attempts && l.attempts[who].approved == Apply(agent, l, e).attempts[who].approved
    ensures !LeavesReplay(e, who)
    ensures l.attempts[who].next <= Apply(agent, l, e).attempts[who].next
    ensures e.By? && e.who == who && e.act.Started? ==>
              e.act.position < Apply(agent, l, e).attempts[who].next
  {
    AttemptsStep(agent, l, e, who);
    hide Apply, CompleteCheckpoint, CompleteApproval, Effects, Permitted;
  }

  lemma ApprovedHere(agent: Agent, l: Ledger, e: Event)
    requires Kept(agent, l) && Allowed(agent, l, e) && e.Begun? && e.who in Apply(agent, l, e).attempts
    requires Apply(agent, l, e).attempts[e.who].approved.Some?
    ensures e.origin.FromApproval? && e.origin.decision.Approve?
    ensures Apply(agent, l, e).attempts[e.who].approved == Some(e.origin.approval) && e.origin.approval.agentId == agent.id
    ensures e.origin.id in l.approvals && l.approvals[e.origin.id] == Owned(e.origin.approval, l.approvals[e.origin.id].chain, l.approvals[e.origin.id].view)
  {
    AttemptsStep(agent, l, e, e.who);
    BegunIsKept(agent, l, e);
    hide Kept, AttemptKept;
  }

  lemma {:induction false} ApprovedSince(agent: Agent, log: seq<Event>, who: Who) returns (p: nat, b: nat)
    requires Accepted(agent, log)
    requires who in Replay(agent, log).attempts && Replay(agent, log).attempts[who].approved.Some?
    ensures ApprovedAt(agent, log, who, p, b, Replay(agent, log).attempts[who].approved.value)
  {
    var n := |log| - 1;
    var before := log[..n];
    var approval := Replay(agent, log).attempts[who].approved.value;
    LastStep(agent, log);
    if log[n].Begun? && log[n].who == who {
      AcceptedIsKept(agent, before);
      ApprovedHere(agent, Replay(agent, before), log[n]);
      p := StoredSince(agent, before, log[n].origin.id);
      b := n;
    } else {
      ReplayStep(agent, Replay(agent, before), log[n], who);
      hide Apply, Allowed;
      p, b := ApprovedSince(agent, before, who);
      ApprovedLonger(agent, log, who, p, b, approval);
    }
  }

  predicate StartsAs(e: Event, who: Who) {
    e.By? && e.who == who && e.act.Started?
  }

  // A gated body is begun only while its attempt replays an approval, at the
  // position its request has in the approved wave.
  lemma GatedStart(agent: Agent, log: seq<Event>, i: nat, who: Who)
    requires WellFormedAgent(agent) && Accepted(agent, log) && i < |log|
    requires StartsAs(log[i], who) && GatedByApproval(agent, log[i].act.request.name)
    ensures Accepted(agent, log[..i]) && who in Replay(agent, log[..i]).attempts
    ensures var a := Replay(agent, log[..i]).attempts[who];
            && a.approved.Some?
            && a.next <= log[i].act.position < |a.approved.value.requests|
            && a.approved.value.requests[log[i].act.position] == log[i].act.request
  {
    StepAt(agent, log, i);
    hide Replay, Accepted, Apply;
  }

  // Whenever a tool that the policy gates is begun, its request is one of the
  // requests of an approval of the same agent that was stored by a pause, was
  // still stored, and was consumed with "approve" by this very attempt.
  lemma ApprovalGate(agent: Agent, log: seq<Event>, i: nat, who: Who) returns (p: nat, b: nat, approval: Approval)
    requires WellFormedAgent(agent) && Accepted(agent, log) && i < |log|
    requires StartsAs(log[i], who) && GatedByApproval(agent, log[i].act.request.name)
    ensures ApprovedAt(agent, log[..i], who, p, b, approval)
    ensures log[i].act.position < |approval.requests| && approval.requests[log[i].act.position] == log[i].act.request
  {
    GatedStart(agent, log, i, who);
    hide *;
    p, b := ApprovedSince(agent, log[..i], who);
    approval := Replay(agent, log[..i]).attempts[who].approved.value;
  }

  function PauseCount(log: seq<Event>, id: Id): nat {
    if log == [] then 0
    else PauseCount(log[..|log| - 1], id) + (if Pauses(log[|log| - 1], id) then 1 else 0)
  }

  function Consumptions(log: seq<Event>, id: Id): nat {
    if log == [] then 0
    else Consumptions(log[..|log| - 1], id) + (if Consumes(log[|log| - 1], id) then 1 else 0)
  }

  predicate Pending(l: Ledger, id: Id) {
    id in l.approvals && l.approvals[id].Owned?
  }

  lemma ConsumptionStep(agent: Agent, l: Ledger, e: Event, id: Id)
    requires Kept(agent, l) && Allowed(agent, l, e)
    ensures Consumes(e, id) ==> Pending(l, id) && !Pending(Apply(agent, l, e), id)
    ensures Pending(Apply(agent, l, e), id) ==> (Pending(l, id) && !Consumes(e, id)) || Pauses(e, id)
  {
    if Consumes(e, id) {
      assert ApprovalKept(agent, l, l.approvals[id]);
    }
    if Pending(Apply(agent, l, e), id) {
      ApprovalStep(agent, l, e, id);
    }
    hide MayAct, CheckpointsAfter, ChainsAfter, AttemptsAfter;
  }

  // Each stored approval is consumed at most once, however many callers try.
  lemma {:induction false} ConsumedAtMostOnce(agent: Agent, log: seq<Event>, id: Id)
    requires Accepted(agent, log)
    ensures Consumptions(log, id) + (if Pending(Replay(agent, log), id) then 1 else 0) <= PauseCount(log, id)
  {
    if log != [] {
      var before := log[..|log| - 1];
      LastStep(agent, log);
      hide Apply, Allowed, Pending;
      ConsumedAtMostOnce(agent, before, id);
      AcceptedIsKept(agent, before);
      ConsumptionStep(agent, Replay(agent, before), log[|log| - 1], id);
      ConsumesOrPauses(log[|log| - 1], id);
    } else {
      assert !Pending(EmptyLedger, id);
    }
  }

  lemma ConsumesOrPauses(e: Event, id: Id)
    ensures !(Consumes(e, id) && Pauses(e, id))
  {
  }

  // Event i began the body at this position of the wave, in the attempt that
  // `who` is still making.
  ghost predicate StartedAt(log: seq<Event>, i: nat, who: Who, position: nat) {
    && i < |log| && StartsAs(log[i], who) && log[i].act.position == position
    && forall k :: i < k < |log| ==> !(log[k].Begun? && log[k].who == who)
  }

  lemma StartedEarlier(log: seq<Event>, i: nat, who: Who, position: nat)
    requires StartedAt(log, i, who, position)
    ensures var n := |log| - 1;
            && !(log[n].Begun? && log[n].who == who)
            && if i < n then StartedAt(log[..n], i, who, position) else StartsAs(log[n], who) && log[n].act.position == position
  {
  }

  lemma {:induction false} ReplayAdvances(agent: Agent, log: seq<Event>, i: nat, who: Who, position: nat)
    requires Accepted(agent, log) && StartedAt(log, i, who, position)
    requires who in Replay(agent, log).attempts && Replay(agent, log).attempts[who].approved.Some?
    ensures position < Replay(agent, log).attempts[who].next
    decreases |log|
  {
    var n := |log| - 1;
    LastStep(agent, log);
    StartedEarlier(log, i, who, position);
    hide Apply, Allowed, Replay, Accepted, StartedAt;
    ReplayStep(agent, Replay(agent, log[..n]), log[n], who);
    if i < n {
      ReplayAdvances(agent, log[..n], i, who, position);
    }
  }

  // One consumption executes each position of the approved wave at most once.
  lemma ApprovedOnce(agent: Agent, log: seq<Event>, i: nat, j: nat, who: Who)
    requires WellFormedAgent(agent) && Accepted(agent, log) && i < j < |log|
    requires StartsAs(log[i], who) && StartsAs(log[j], who)
    requires GatedByApproval(agent, log[j].act.request.name)
    requires forall k :: i < k < j ==> !(log[k].Begun? && log[k].who == who)
    ensures log[i].act.position < log[j].act.position
  {
    GatedStart(agent, log, j, who);
    assert StartedAt(log[..j], i, who, log[i].act.position);
    hide *;
    ReplayAdvances(agent, log[..j], i, who, log[i].act.position);
  }

  // ---------------------------------------------------------------------
  // Keyed operations
  // ---------------------------------------------------------------------

  predicate ClaimsKey(e: Event, key: string) {
    e.By? && e.act == Claimed(key)
  }

  function Grants(log: seq<Event>, key: string): nat {
    if log == [] then 0
    else Grants(log[..|log| - 1], key) + (if ClaimsKey(log[|log| - 1], key) then 1 else 0)
  }

  function KeyedStarts(agent: Agent, log: seq<Event>, key: string): nat {
    if log == [] then 0
    else KeyedStarts(agent, log[..|log| - 1], key) + (if StartsKeyed(agent, log[|log| - 1], key) then 1 else 0)
  }

  lemma {:induction false} KeyedCounts(agent: Agent, log: seq<Event>, key: string)
    requires Accepted(agent, log)
    ensures Replay(agent, log).grants[key] == Grants(log, key)
    ensures Replay(agent, log).starts[key] == KeyedStarts(agent, log, key)
  {
    if log != [] {
      LastStep(agent, log);
      hide Apply, Allowed, StartsKeyed;
      KeyedCounts(agent, log[..|log| - 1], key);
      CountsStep(agent, Replay(agent, log[..|log| - 1]), log[|log| - 1], key);
    }
  }

  // With a registry, a keyed non-read-only body is begun at most once for each
  // time the registry granted its key, at every point of every history.
  lemma OneStartPerGrant(agent: Agent, log: seq<Event>, key: string, crash: nat)
    requires Accepted(agent, log) && crash <= |log|
    ensures KeyedStarts(agent, log[..crash], key) <= Grants(log[..crash], key)
  {
    PrefixAccepted(agent, log, crash);
    KeyedCounts(agent, log[..crash], key);
    AcceptedIsKept(agent, log[..crash]);
    hide Replay, Accepted;
  }
}
