// The vocabulary of the agent loop: tool requests, transcripts, policy
// verdicts, checkpoints, pending approvals, and the pure helpers that the
// runtime computes from them.
module AgentModel {
  import opened Wrappers

  type Id = string

  datatype SideEffect = ReadOnly | Idempotent | Unsafe

  // One tool request. `key` is the idempotency key carried by the arguments,
  // None when it is absent or empty.
  datatype ToolRequest = ToolRequest(id: string, name: string, arguments: string, key: Option<string>)

  datatype Message =
    | System(text: string)
    | User(text: string)
    | Assistant(text: string, calls: seq<ToolRequest>)
    | Tool(callId: Option<string>, name: string, text: string)

  // What a tool wave reports for one request. Only Executed ran the tool body.
  datatype ToolResult =
    | UnknownTool(tool: string, callId: string, text: string)
    | InvalidArguments(tool: string, callId: string, text: string)
    | DeniedByPolicy(tool: string, callId: string, text: string)
    | DeniedBySideEffectPolicy(tool: string, callId: string, text: string)
    | DeniedByCaller(tool: string, text: string)
    | Deduplicated(tool: string, callId: string, text: string)
    | Executed(tool: string, callId: string, text: string, effect: SideEffect)

  datatype Verdict = Verdict(allowed: bool, requiresApproval: bool)

  // The policy evaluator seen as two arbitrary verdict functions. A decision
  // that asks for approval is never at the same time an allowing one.
  datatype Policy = Policy(toolAllowed: string -> bool, sideEffect: string -> Verdict)

  // `effect` None stands for missing or unrecognised metadata; in a definition's
  // declarations None stands for an unrecognised one.
  datatype ToolSpec = ToolSpec(metadataName: string, effect: Option<SideEffect>)

  datatype Agent = Agent(
    id: Id,
    tools: map<string, ToolSpec>,
    declared: map<string, Option<SideEffect>>,
    argumentsValid: (string, string) -> bool,
    policy: Option<Policy>,
    maxIterations: nat,
    checkpointing: bool,
    registry: bool,
    sessions: bool)

  ghost predicate WellFormedAgent(agent: Agent) {
    && agent.maxIterations >= 1
    && (agent.policy.Some? ==>
          forall name :: agent.policy.value.sideEffect(name).requiresApproval ==>
                           !agent.policy.value.sideEffect(name).allowed)
  }

  datatype Checkpoint = Checkpoint(
    agentId: Id,
    sessionId: Option<Id>,
    input: string,
    messages: seq<Message>,
    results: seq<ToolResult>,
    iterations: nat,
    historyTail: nat)

  datatype Approval = Approval(
    agentId: Id,
    requests: seq<ToolRequest>,
    messages: seq<Message>,
    results: seq<ToolResult>,
    iterations: nat,
    sessionId: Option<Id>,
    input: string)

  datatype Decision = Approve | Deny

  // A caller's request; the two resume forms exclude each other, and a
  // checkpoint resume carries no input of its own.
  datatype Request =
    | Fresh(requestId: Id, sessionId: Option<Id>, input: string)
    | Resume(requestId: Id, checkpointId: Id, input: string)
    | Continue(requestId: Id, sessionId: Option<Id>, continuationId: Id, decision: Decision)

  // ---------------------------------------------------------------------
  // Helpers that only compute a value
  // ---------------------------------------------------------------------

  // The declaration in the definition wins over the tool's own metadata, and
  // anything unrecognised counts as unsafe.
  function Classify(agent: Agent, name: string): SideEffect
    requires name in agent.tools
  {
    GetOr(if name in agent.declared then agent.declared[name] else agent.tools[name].effect, Unsafe)
  }

  // Whether executing `name` could change something outside.
  predicate HasEffect(agent: Agent, name: string) {
    name in agent.tools && Classify(agent, name) != ReadOnly
  }

  predicate WaveIsReplaySafe(agent: Agent, requests: seq<ToolRequest>) {
    forall r <- requests :: !HasEffect(agent, r.name)
  }

  predicate ApprovalNeeded(agent: Agent, requests: seq<ToolRequest>) {
    && agent.policy.Some?
    && exists r <- requests ::
         && HasEffect(agent, r.name)
         && agent.policy.value.toolAllowed(agent.tools[r.name].metadataName)
         && agent.policy.value.sideEffect(agent.tools[r.name].metadataName).requiresApproval
  }

  // The policy asks for a caller's approval before `name` may run.
  predicate GatedByApproval(agent: Agent, name: string) {
    && HasEffect(agent, name)
    && agent.policy.Some?
    && agent.policy.value.sideEffect(name).requiresApproval
  }

  // What must hold of a request whose body runs: known tool, valid arguments,
  // no hard denial, and a side effect only with the policy's consent or with a
  // caller's approval where the policy asks for one.
  predicate Permitted(agent: Agent, request: ToolRequest, approved: bool) {
    && request.name in agent.tools
    && agent.argumentsValid(request.name, request.arguments)
    && (agent.policy.Some? ==>
          && agent.policy.value.toolAllowed(request.name)
          && (HasEffect(agent, request.name) ==>
                var verdict := agent.policy.value.sideEffect(request.name);
                verdict.allowed || (approved && verdict.requiresApproval)))
  }

  // The one kind of result each request can get, given whether its wave was
  // approved.
  predicate Fits(agent: Agent, request: ToolRequest, approved: bool, result: ToolResult) {
    match result
    case UnknownTool(_, _, _) => request.name !in agent.tools
    case InvalidArguments(_, _, _) =>
      request.name in agent.tools && !agent.argumentsValid(request.name, request.arguments)
    case DeniedByPolicy(_, _, _) =>
      && request.name in agent.tools && agent.argumentsValid(request.name, request.arguments)
      && agent.policy.Some? && !agent.policy.value.toolAllowed(request.name)
    case DeniedBySideEffectPolicy(_, _, _) =>
      && HasEffect(agent, request.name) && agent.argumentsValid(request.name, request.arguments)
      && agent.policy.Some? && agent.policy.value.toolAllowed(request.name)
      && !Permitted(agent, request, approved)
    case DeniedByCaller(_, _) => false
    case Deduplicated(_, _, _) =>
      agent.registry && request.key.Some? && HasEffect(agent, request.name) && Permitted(agent, request, approved)
    case Executed(_, _, _, effect) =>
      Permitted(agent, request, approved) && effect == Classify(agent, request.name)
  }

  // The checks that come before execution, in order: the refusal they end in,
  // or None when the body may run.
  function Screen(agent: Agent, request: ToolRequest, approved: bool): (refusal: Option<ToolResult>)
    ensures refusal.None? ==> Permitted(agent, request, approved)
    ensures refusal.Some? ==>
              && Answered(agent, request, approved, refusal.value)
              && !refusal.value.Executed? && !refusal.value.Deduplicated?
  {
    var name, id := request.name, request.id;
    if name !in agent.tools then Some(UnknownTool(name, id, "unknown tool"))
    else if !agent.argumentsValid(name, request.arguments) then Some(InvalidArguments(name, id, "invalid tool arguments"))
    else if agent.policy.None? then None
    else if !agent.policy.value.toolAllowed(name) then Some(DeniedByPolicy(name, id, "denied by policy"))
    else if Classify(agent, name) == ReadOnly then None
    else
      var verdict := agent.policy.value.sideEffect(name);
      var approvalSatisfied := approved && verdict.requiresApproval;
      if !verdict.allowed && !approvalSatisfied
      then Some(DeniedBySideEffectPolicy(name, id, "denied by side-effect policy"))
      else None
  }

  // A result that answers one request.
  predicate Answered(agent: Agent, request: ToolRequest, approved: bool, result: ToolResult)
    ensures Answered(agent, request, approved, result) ==> !result.DeniedByCaller?
  {
    && Fits(agent, request, approved, result)
    && result.tool == request.name
    && result.callId == request.id
  }

  // The results of a complete wave answer its requests in order.
  ghost predicate ResultsFor(agent: Agent, requests: seq<ToolRequest>, approved: bool, results: seq<ToolResult>) {
    && |results| == |requests|
    && forall i :: 0 <= i < |requests| ==> Answered(agent, requests[i], approved, results[i])
  }

  // The checks decide which kind of answer a request can get at all.
  lemma ScreenDecides(agent: Agent, request: ToolRequest, approved: bool, result: ToolResult)
    requires Answered(agent, request, approved, result)
    ensures var refusal := Screen(agent, request, approved);
            if refusal.None? then result.Executed? || result.Deduplicated?
            else
              && (result.UnknownTool? <==> refusal.value.UnknownTool?)
              && (result.InvalidArguments? <==> refusal.value.InvalidArguments?)
              && (result.DeniedByPolicy? <==> refusal.value.DeniedByPolicy?)
              && (result.DeniedBySideEffectPolicy? <==> refusal.value.DeniedBySideEffectPolicy?)
              && !result.Executed? && !result.Deduplicated?
  {
  }

  // ---------------------------------------------------------------------
  // Session history in a transcript
  // ---------------------------------------------------------------------

  const MaxHistory := 20

  function HistoryTail(history: seq<Message>): seq<Message> {
    if |history| <= MaxHistory then history else history[|history| - MaxHistory..]
  }

  // Python's messages[from:], which is empty past the end.
  function Suffix(messages: seq<Message>, from: nat): seq<Message> {
    if from <= |messages| then messages[from..] else []
  }

  // ---------------------------------------------------------------------
  // Side effects recorded in a result list
  // ---------------------------------------------------------------------

  datatype Call = Call(tool: string, callId: string)

  // The non-read-only tool bodies a result list accounts for, in order.
  function EffectCalls(results: seq<ToolResult>): seq<Call> {
    if results == [] then []
    else
      var last := results[|results| - 1];
      EffectCalls(results[..|results| - 1]) +
      (if last.Executed? && last.effect != ReadOnly then [Call(last.tool, last.callId)] else [])
  }

  lemma {:induction false} EffectCallsAppend(a: seq<ToolResult>, b: seq<ToolResult>)
    ensures EffectCalls(a + b) == EffectCalls(a) + EffectCalls(b)
  {
    if b == [] {
      assert a + b == a;
    } else {
      var b' := b[..|b| - 1];
      assert (a + b)[..|a + b| - 1] == a + b';
      EffectCallsAppend(a, b');
    }
  }

  // ---------------------------------------------------------------------
  // Transcript shape
  // ---------------------------------------------------------------------

  // Each call is answered in order under its own name. The answer carries the
  // call's id, except in a wave that was replayed after an approval.
  predicate Answers(calls: seq<ToolRequest>, answers: seq<Message>, replayed: set<seq<ToolRequest>>) {
    && |answers| == |calls|
    && forall i :: 0 <= i < |calls| ==>
         && answers[i].Tool?
         && answers[i].name == calls[i].name
         && (answers[i].callId == Some(calls[i].id) || (answers[i].callId.None? && calls in replayed))
  }

  // A turn is a sequence of user messages and assistant messages, each
  // assistant message followed at once by the answers to all its calls.
  predicate Groups(turn: seq<Message>, replayed: set<seq<ToolRequest>>)
    decreases |turn|
  {
    turn == [] ||
    (match turn[0]
     case System(_) => false
     case Tool(_, _, _) => false
     case User(_) => Groups(turn[1..], replayed)
     case Assistant(_, calls) =>
       && |calls| < |turn|
       && Answers(calls, turn[1..1 + |calls|], replayed)
       && Groups(turn[1 + |calls|..], replayed))
  }

  lemma {:induction false} GroupsAppend(a: seq<Message>, b: seq<Message>, replayed: set<seq<ToolRequest>>)
    requires Groups(a, replayed) && Groups(b, replayed)
    ensures Groups(a + b, replayed)
    decreases |a|
  {
    if a == [] {
      assert a + b == b;
    } else {
      hide Answers;
      var n := if a[0].Assistant? then 1 + |a[0].calls| else 1;
      assert (a + b)[0] == a[0] && n <= |a|;
      assert (a + b)[n..] == a[n..] + b;
      assert (a + b)[1..n] == a[1..n];
      GroupsAppend(a[n..], b, replayed);
    }
  }

  lemma {:induction false} GroupsMonotone(turn: seq<Message>, small: set<seq<ToolRequest>>, big: set<seq<ToolRequest>>)
    requires Groups(turn, small) && small <= big
    ensures Groups(turn, big)
    decreases |turn|
  {
    if turn != [] {
      var n := if turn[0].Assistant? then 1 + |turn[0].calls| else 1;
      GroupsMonotone(turn[n..], small, big);
    }
  }

  // One assistant message with its answers forms a turn of its own.
  lemma GroupIsTurn(text: string, calls: seq<ToolRequest>, answers: seq<Message>, replayed: set<seq<ToolRequest>>)
    requires Answers(calls, answers, replayed)
    ensures Groups([Assistant(text, calls)] + answers, replayed)
  {
    var turn := [Assistant(text, calls)] + answers;
    assert turn[1..1 + |calls|] == answers;
    assert turn[1 + |calls|..] == [];
  }

  // A transcript: the system prompt, `tail` messages of older history, and a
  // nonempty turn made of complete groups.
  predicate Shaped(messages: seq<Message>, tail: nat, replayed: set<seq<ToolRequest>>) {
    && 1 + tail < |messages|
    && messages[0].System?
    && (forall i :: 1 <= i < |messages| ==> !messages[i].System?)
    && Groups(messages[1 + tail..], replayed)
  }

  lemma ShapedExtend(messages: seq<Message>, group: seq<Message>, tail: nat, replayed: set<seq<ToolRequest>>)
    requires Shaped(messages, tail, replayed)
    requires Groups(group, replayed)
    requires forall m <- group :: !m.System?
    ensures Shaped(messages + group, tail, replayed)
  {
    assert (messages + group)[1 + tail..] == messages[1 + tail..] + group;
    GroupsAppend(messages[1 + tail..], group, replayed);
  }

  // A paused or cut transcript: complete groups and then one assistant message
  // whose calls are still unanswered.
  predicate Dangling(messages: seq<Message>, calls: seq<ToolRequest>, tail: nat, replayed: set<seq<ToolRequest>>) {
    && |messages| > 0
    && messages[|messages| - 1].Assistant?
    && messages[|messages| - 1].calls == calls
    && calls != []
    && Shaped(messages[..|messages| - 1], tail, replayed)
  }

  // Answering the dangling calls completes the transcript.
  lemma DanglingAnswered(messages: seq<Message>, calls: seq<ToolRequest>, answers: seq<Message>, tail: nat, replayed: set<seq<ToolRequest>>)
    requires Dangling(messages, calls, tail, replayed)
    requires Answers(calls, answers, replayed)
    ensures Shaped(messages + answers, tail, replayed)
  {
    var n := |messages| - 1;
    var group := [messages[n]] + answers;
    GroupIsTurn(messages[n].text, calls, answers, replayed);
    ShapedExtend(messages[..n], group, tail, replayed);
    assert messages[..n] + group == messages + answers;
  }

  lemma DanglingMonotone(messages: seq<Message>, calls: seq<ToolRequest>, tail: nat, small: set<seq<ToolRequest>>, big: set<seq<ToolRequest>>)
    requires Dangling(messages, calls, tail, small) && small <= big
    ensures Dangling(messages, calls, tail, big)
  {
    GroupsMonotone(messages[..|messages| - 1][1 + tail..], small, big);
  }
}
