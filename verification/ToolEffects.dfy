// What approvals, idempotency keys and checkpoints protect, in terms of what a
// tool's author and the agent's definition say: a tool counts as harmless only
// if it is marked read-only.
module ToolEffects {
  import opened Wrappers
  import opened AgentModel
  import opened ReplayLedger
  import opened ReplayTheorems
  import opened CrashSafety

  // The definition's declaration says so or, without one, the tool's metadata.
  predicate MarkedReadOnly(agent: Agent, name: string) {
    if name in agent.declared then agent.declared[name] == Some(ReadOnly)
    else name in agent.tools && agent.tools[name].effect == Some(ReadOnly)
  }

  lemma MarksDecide(agent: Agent, name: string)
    ensures HasEffect(agent, name) <==> name in agent.tools && !MarkedReadOnly(agent, name)
  {
  }

  // ---------------------------------------------------------------------
  // What the checks let through
  // ---------------------------------------------------------------------

  // A body may run exactly if its tool exists, its arguments are valid, and the
  // policy, if there is one, allows the tool and, for a tool that is not marked
  // read-only, its side effect, or wants the approval that was given.
  lemma ScreenExactly(agent: Agent, request: ToolRequest, approved: bool)
    ensures Screen(agent, request, approved).None? <==>
              && request.name in agent.tools && agent.argumentsValid(request.name, request.arguments)
              && (agent.policy.Some? ==>
                    && agent.policy.value.toolAllowed(request.name)
                    && (!MarkedReadOnly(agent, request.name) ==>
                          var verdict := agent.policy.value.sideEffect(request.name);
                          verdict.allowed || (approved && verdict.requiresApproval)))
    ensures var refusal := Screen(agent, request, approved);
            refusal.Some? ==>
              var r := refusal.value;
              && !r.DeniedByCaller? && r.tool == request.name && r.callId == request.id
              && (r.UnknownTool? <==> request.name !in agent.tools)
              && (r.InvalidArguments? <==> request.name in agent.tools && !agent.argumentsValid(request.name, request.arguments))
              && (r.DeniedByPolicy? <==>
                    && request.name in agent.tools && agent.argumentsValid(request.name, request.arguments)
                    && agent.policy.Some? && !agent.policy.value.toolAllowed(request.name))
              && (r.UnknownTool? || r.InvalidArguments? || r.DeniedByPolicy? || r.DeniedBySideEffectPolicy?)
  {
    MarksDecide(agent, request.name);
  }

  // What asks for an approval before it may run.
  predicate AsksApproval(agent: Agent, name: string) {
    && name in agent.tools && !MarkedReadOnly(agent, name)
    && agent.policy.Some?
    && agent.policy.value.toolAllowed(agent.tools[name].metadataName)
    && agent.policy.value.sideEffect(agent.tools[name].metadataName).requiresApproval
  }

  // A wave pauses exactly if one of its requests asks for an approval.
  lemma PausesExactly(agent: Agent, requests: seq<ToolRequest>)
    ensures ApprovalNeeded(agent, requests) <==> exists r <- requests :: AsksApproval(agent, r.name)
  {
    if r :| r in requests && AsksApproval(agent, r.name) {
      MarksDecide(agent, r.name);
    }
    if ApprovalNeeded(agent, requests) {
      var r :| r in requests && HasEffect(agent, r.name)
               && agent.policy.value.toolAllowed(agent.tools[r.name].metadataName)
               && agent.policy.value.sideEffect(agent.tools[r.name].metadataName).requiresApproval;
      assert AsksApproval(agent, r.name);
    }
  }

  // The checkpoint stays stored beside a wave only if every tool in it that
  // exists is marked read-only.
  lemma ReplaySafeExactly(agent: Agent, requests: seq<ToolRequest>)
    ensures WaveIsReplaySafe(agent, requests) <==> forall r <- requests :: r.name in agent.tools ==> MarkedReadOnly(agent, r.name)
  {
    forall r | r in requests
      ensures HasEffect(agent, r.name) <==> r.name in agent.tools && !MarkedReadOnly(agent, r.name)
    {
      MarksDecide(agent, r.name);
    }
  }

  // ---------------------------------------------------------------------
  // What every history guarantees
  // ---------------------------------------------------------------------

  lemma StartedExists(agent: Agent, log: seq<Event>, i: nat, who: Who)
    requires Accepted(agent, log) && i < |log| && StartsAs(log[i], who)
    ensures Accepted(agent, log[..i]) && who in Replay(agent, log[..i]).attempts
    ensures log[i].act.request.name in agent.tools
  {
    StepAt(agent, log, i);
    hide Replay, Accepted, Apply;
  }

  // Where the policy asks for an approval, a tool that is not marked read-only
  // is begun only as a request of a stored pause that this attempt consumed with
  // approve.
  lemma UnmarkedNeedsApproval(agent: Agent, log: seq<Event>, i: nat, who: Who) returns (p: nat, b: nat, approval: Approval)
    requires WellFormedAgent(agent) && Accepted(agent, log) && i < |log| && StartsAs(log[i], who)
    requires var name := log[i].act.request.name;
             && !MarkedReadOnly(agent, name)
             && agent.policy.Some? && agent.policy.value.sideEffect(name).requiresApproval
    ensures ApprovedAt(agent, log[..i], who, p, b, approval)
    ensures log[i].act.position < |approval.requests| && approval.requests[log[i].act.position] == log[i].act.request
  {
    StartedExists(agent, log, i, who);
    MarksDecide(agent, log[i].act.request.name);
    p, b, approval := ApprovalGate(agent, log, i, who);
  }

  // The bodies begun under a key, of tools that are not marked read-only.
  function UnmarkedStarts(agent: Agent, log: seq<Event>, key: string): nat {
    if log == [] then 0
    else
      var e := log[|log| - 1];
      UnmarkedStarts(agent, log[..|log| - 1], key) +
      (if e.By? && e.act.Started? && e.act.request.key == Some(key) && !MarkedReadOnly(agent, e.act.request.name) then 1 else 0)
  }

  lemma {:induction false} UnmarkedAreKeyed(agent: Agent, log: seq<Event>, key: string)
    requires Accepted(agent, log) && agent.registry
    ensures UnmarkedStarts(agent, log, key) == KeyedStarts(agent, log, key)
  {
    if log != [] {
      var n := |log| - 1;
      LastStep(agent, log);
      UnmarkedAreKeyed(agent, log[..n], key);
      if log[n].By? && log[n].act.Started? {
        StartedExists(agent, log, n, log[n].who);
        MarksDecide(agent, log[n].act.request.name);
      }
      hide Accepted, Allowed, Replay, Apply, HasEffect, MarkedReadOnly;
    }
  }

  // With a registry such a body is begun at most once for each grant of its key,
  // at every point of every history.
  lemma UnmarkedOncePerGrant(agent: Agent, log: seq<Event>, key: string, crash: nat)
    requires Accepted(agent, log) && agent.registry && crash <= |log|
    ensures UnmarkedStarts(agent, log[..crash], key) <= Grants(log[..crash], key)
  {
    PrefixAccepted(agent, log, crash);
    OneStartPerGrant(agent, log, key, crash);
    UnmarkedAreKeyed(agent, log[..crash], key);
  }

  // A chain's record of what was begun only grows.
  ghost predicate Grown(l: Ledger, l': Ledger, c: nat) {
    c < |l.chains| && c < |l'.chains| && l.chains[c].started <= l'.chains[c].started
  }

  lemma ChainGrows(agent: Agent, l: Ledger, e: Event, c: nat)
    requires c < |l.chains|
    ensures Grown(l, Apply(agent, l, e), c)
  {
    hide Effects, Begin, CheckpointsAfter, ApprovalsAfter, AttemptsAfter, GrantsAfter, StartsAfter;
  }

  lemma {:induction false} ChainsGrow(agent: Agent, log: seq<Event>, i: nat, j: nat, c: nat)
    requires Accepted(agent, log) && i <= j <= |log| && c < |Replay(agent, log[..i]).chains|
    ensures Grown(Replay(agent, log[..i]), Replay(agent, log[..j]), c)
    decreases j
  {
    if i < j {
      ChainsGrow(agent, log, i, j - 1, c);
      StepAt(agent, log, j - 1);
      ChainGrows(agent, Replay(agent, log[..j - 1]), log[j - 1], c);
      hide Replay, Accepted, Apply, Allowed;
    }
  }

  // The results report that this body ran.
  ghost predicate Reports(results: seq<ToolResult>, call: Call) {
    exists r <- results :: r.Executed? && r.tool == call.tool && r.callId == call.callId
  }

  lemma {:induction false} CallsAreReported(results: seq<ToolResult>, call: Call)
    requires call in EffectCalls(results)
    ensures Reports(results, call)
  {
    var n := |results| - 1;
    if call in EffectCalls(results[..n]) {
      CallsAreReported(results[..n], call);
      var r :| r in results[..n] && r.Executed? && r.tool == call.tool && r.callId == call.callId;
      assert r in results;
    } else {
      assert results[n] in results;
    }
  }

  lemma StartIsOnChain(agent: Agent, log: seq<Event>, i: nat, who: Who)
    requires Accepted(agent, log) && i < |log| && StartsAs(log[i], who) && !MarkedReadOnly(agent, log[i].act.request.name)
    ensures who in Replay(agent, log[..i]).attempts
    ensures var c := Replay(agent, log[..i]).attempts[who].chain;
            && c < |Replay(agent, log[..i + 1]).chains|
            && Call(log[i].act.request.name, log[i].act.request.id) in Replay(agent, log[..i + 1]).chains[c].started
  {
    StepAt(agent, log, i);
    StartedExists(agent, log, i, who);
    MarksDecide(agent, log[i].act.request.name);
    AcceptedIsKept(agent, log[..i]);
    var l := Replay(agent, log[..i]);
    assert AttemptKept(agent, l, l.attempts[who]);
    hide Replay, Accepted, Allowed, MarkedReadOnly, HasEffect, GrantsCover, MayAct;
  }

  // Once such a body has begun, every record that could resume its chain reports
  // it, wherever a crash comes.
  lemma UnmarkedIsRecorded(agent: Agent, log: seq<Event>, i: nat, who: Who, crash: nat)
    requires Accepted(agent, log) && Exclusive(agent, log) && i < crash <= |log|
    requires StartsAs(log[i], who) && !MarkedReadOnly(agent, log[i].act.request.name)
    ensures who in Replay(agent, log[..i]).attempts
    ensures var c := Replay(agent, log[..i]).attempts[who].chain;
            var call := Call(log[i].act.request.name, log[i].act.request.id);
            var l := Replay(agent, log[..crash]);
            && (forall id <- l.checkpoints :: Resumes(l.checkpoints, id, c) ==> Reports(l.checkpoints[id].record.results, call))
            && (forall id <- l.approvals :: Resumes(l.approvals, id, c) ==> Reports(l.approvals[id].record.results, call))
  {
    StartIsOnChain(agent, log, i, who);
    var c := Replay(agent, log[..i]).attempts[who].chain;
    var call := Call(log[i].act.request.name, log[i].act.request.id);
    var l := Replay(agent, log[..crash]);
    ChainsGrow(agent, log, i + 1, crash, c);
    PrefixAccepted(agent, log, crash);
    AcceptedIsKept(agent, log[..crash]);
    CrashSafeReplay(agent, log, crash);
    hide Replay, Accepted, Exclusive, OneWay, EffectCalls, Reports, GrantsCover, CompleteApproval, CompleteCheckpoint, AttemptKept;
    assert call in l.chains[c].started;
    forall id | id in l.checkpoints && Resumes(l.checkpoints, id, c)
      ensures Reports(l.checkpoints[id].record.results, call)
    {
      OwnedIsOurs(agent, l);
      CallsAreReported(l.checkpoints[id].record.results, call);
    }
    forall id | id in l.approvals && Resumes(l.approvals, id, c)
      ensures Reports(l.approvals[id].record.results, call)
    {
      OwnedIsOurs(agent, l);
      CallsAreReported(l.approvals[id].record.results, call);
    }
  }

  lemma OwnedIsOurs(agent: Agent, l: Ledger)
    requires Kept(agent, l)
    ensures forall id <- l.checkpoints :: l.checkpoints[id].Owned? ==> l.checkpoints[id].record.agentId == agent.id
    ensures forall id <- l.approvals :: l.approvals[id].Owned? ==> l.approvals[id].record.agentId == agent.id
  {
    hide Shaped, Dangling, GrantsCover, AttemptKept;
    forall id | id in l.checkpoints ensures CheckpointKept(agent, l, l.checkpoints[id]) {}
    forall id | id in l.approvals ensures ApprovalKept(agent, l, l.approvals[id]) {}
  }
}
