// The runtime's invocation loop over its stores. Every await may fail, with or
// without its effect having taken place, and lets other invocations and other
// agents act; a crash leaves the stores as they are at that moment, which is a
// prefix of the history kept in `log`.
module Runtime {
  import opened Wrappers
  import opened AgentModel
  import opened ReplayLedger
  import opened ReplayTheorems
  import opened Histories

  datatype Failure =
    | DeadlineExceeded
    | RetrySuppressed
    | CheckpointNotFound
    | ContinuationNotFound
    | InvalidRequest
    | Raised(retryable: bool)

  datatype Outcome =
    | Completed(text: string, iterations: nat)
    | AwaitingApproval(continuation: Id)
    | Failed(failure: Failure)

  // Unknown continuations and invalid requests can never succeed on retry; an
  // error that says nothing about itself is retried.
  predicate Retryable(failure: Failure) {
    match failure
    case DeadlineExceeded => false
    case RetrySuppressed => false
    case CheckpointNotFound => true
    case ContinuationNotFound => false
    case InvalidRequest => false
    case Raised(retryable) => retryable
  }

  // What a store, the model or the registry can fail with.
  predicate Dependency(failure: Failure) {
    failure.DeadlineExceeded? || failure.Raised?
  }

  datatype ErrorPolicy = FailPolicy | RetryPolicy | FallbackPolicy

  datatype Semantics = Semantics(errorPolicy: ErrorPolicy, retryMaxAttempts: nat, backoff: real)

  // How an invocation ends. PauseRaised is an approval pause reached by a
  // retried attempt, which surfaces as an exception.
  datatype Ending =
    | Responded(outcome: Outcome)
    | ApprovalRequired(continuation: Id)
    | FallbackResponse
    | ErrorRaised(failure: Failure)
    | PauseRaised(continuation: Id)

  function Power2(n: nat): nat {
    if n == 0 then 1 else 2 * Power2(n - 1)
  }

  function Sum(delays: seq<real>): real {
    if delays == [] then 0.0 else Sum(delays[..|delays| - 1]) + delays[|delays| - 1]
  }

  // The delay planned before retry k.
  function Planned(base: real, k: nat): real {
    base * Power2(k) as real
  }

  ghost predicate Backoff(base: real, delays: seq<real>) {
    forall k :: 0 <= k < |delays| ==> delays[k] == Planned(base, k)
  }

  // The planned delays before k retries add up to base * (2^k - 1).
  lemma {:induction false} BackoffTotal(base: real, delays: seq<real>)
    requires Backoff(base, delays)
    ensures Sum(delays) == base * (Power2(|delays|) - 1) as real
  {
    if delays != [] {
      var n := |delays| - 1;
      BackoffTotal(base, delays[..n]);
      assert Power2(n + 1) as real == 2.0 * Power2(n) as real;
    }
  }

  // How the first attempt's failure ends the invocation at once, if it does.
  function FirstFailure(semantics: Semantics, failure: Failure, emitted: bool, attempted: seq<string>): Option<Ending> {
    if failure.DeadlineExceeded? then Some(ErrorRaised(failure))
    else if emitted then Some(ErrorRaised(Raised(true)))
    else if semantics.errorPolicy == FallbackPolicy then Some(FallbackResponse)
    else if semantics.errorPolicy == FailPolicy || failure.RetrySuppressed? then Some(ErrorRaised(failure))
    else if attempted != [] then Some(ErrorRaised(RetrySuppressed))
    else if !Retryable(failure) then Some(ErrorRaised(failure))
    else None
  }

  // Sleep before a retry. `remaining` lists what is left of the invocation's and
  // the retry budget, as far as they are set. The wait succeeds exactly when
  // both budgets are still open and cover the delay, and never outlasts either.
  method WaitForRetry(delay: real, remaining: seq<real>) returns (ok: bool, slept: real)
    ensures ok <==> forall r <- remaining :: 0.0 < r && delay <= r
    ensures 0.0 <= slept && forall r <- remaining :: slept <= r || slept == 0.0
    ensures ok ==> slept == if delay <= 0.0 then 0.0 else delay
    ensures !ok && slept > 0.0 ==> slept in remaining && slept < delay
  {
    if delay <= 0.0 {
      return forall r <- remaining :: 0.0 < r, 0.0;
    }
    if remaining != [] {
      var allowed := remaining[0];
      for i := 1 to |remaining|
        invariant allowed in remaining[..i]
        invariant forall r <- remaining[..i] :: allowed <= r
      {
        if remaining[i] < allowed {
          allowed := remaining[i];
        }
        assert remaining[..i + 1] == remaining[..i] + [remaining[i]];
      }
      assert remaining[..|remaining|] == remaining;
      if allowed <= 0.0 {
        return false, 0.0;
      }
      if delay > allowed {
        return false, allowed;
      }
    }
    return true, delay;
  }

  // What running a tool body came to.
  datatype ToolOutcome = Reported(text: string) | TimedOut(text: string) | OutOfTime

  function TextOf(outcome: ToolOutcome): (text: string)
    ensures !outcome.OutOfTime? ==> Says(outcome, text)
  {
    match outcome
    case OutOfTime => ""
    case TimedOut(text) => text
    case Reported(text) => text
  }

  lemma ExecutedAnswers(agent: Agent, request: ToolRequest, position: nat, approved: bool, text: string)
    requires Permitted(agent, request, approved)
    ensures var result := Executed(request.name, request.id, text, Classify(agent, request.name));
            Answered(agent, request, approved, result) && EffectCalls([result]) == Effects(agent, Started(request, position))
  {
    assert [Executed(request.name, request.id, text, Classify(agent, request.name))][..0] == [];
  }

  // The text that the transcript gets of it.
  predicate Says(outcome: ToolOutcome, text: string) {
    outcome == Reported(text) || outcome == TimedOut(text)
  }

  datatype ModelReply = ModelReply(text: string, requests: seq<ToolRequest>)

  // The attempt has begun these bodies since; otherwise it is as it was.
  ghost predicate Ran(a: Attempt, a': Attempt, begun: seq<Call>) {
    a' == a.(view := a.view.(begun := a.view.begun + begun), next := a'.next)
  }

  lemma RanNothing(a: Attempt)
    ensures Ran(a, a, [])
  {
    assert a.view.begun + [] == a.view.begun;
  }

  lemma RanOn(a: Attempt, a1: Attempt, a2: Attempt, first: seq<Call>, second: seq<Call>)
    requires Ran(a, a1, first) && Ran(a1, a2, second)
    ensures Ran(a, a2, first + second)
  {
    assert a.view.begun + first + second == a.view.begun + (first + second);
  }

  lemma ResultAdded(agent: Agent, requests: seq<ToolRequest>, position: nat, approved: bool, results: seq<ToolResult>, result: ToolResult)
    requires position < |requests| && ResultsFor(agent, requests[..position], approved, results)
    requires Answered(agent, requests[position], approved, result)
    ensures ResultsFor(agent, requests[..position + 1], approved, results + [result])
  {
  }

  // What one result says: what the body returned, what the registry told, or the
  // refusal that the checks end in.
  predicate SaysOne(
    agent: Agent, request: ToolRequest, approved: bool, result: ToolResult, outputs: seq<ToolOutcome>, told: seq<string>) {
    match result
    case Executed(_, _, text, _) => |outputs| == 1 && Says(outputs[0], text) && told == []
    case Deduplicated(_, _, text) => outputs == [] && told == [text]
    case _ => outputs == [] && told == [] && Screen(agent, request, approved) == Some(result)
  }

  // What the bodies of a wave returned and the registry told, in order, is what
  // its results say.
  ghost predicate SaysWhatHappened(
    agent: Agent, requests: seq<ToolRequest>, approved: bool, results: seq<ToolResult>, outputs: seq<ToolOutcome>, told: seq<string>)
    decreases |results|
  {
    && |results| == |requests|
    && if results == [] then outputs == [] && told == []
       else
         var n := |results| - 1;
         exists i: nat, j: nat | i <= |outputs| && j <= |told| ::
           && SaysOne(agent, requests[n], approved, results[n], outputs[i..], told[j..])
           && SaysWhatHappened(agent, requests[..n], approved, results[..n], outputs[..i], told[..j])
  }

  lemma OneMoreSays(
    agent: Agent, requests: seq<ToolRequest>, position: nat, approved: bool, results: seq<ToolResult>, result: ToolResult,
    o0: seq<ToolOutcome>, o1: seq<ToolOutcome>, o2: seq<ToolOutcome>, t0: seq<string>, t1: seq<string>, t2: seq<string>)
    requires position < |requests| && o0 <= o1 <= o2 && t0 <= t1 <= t2
    requires SaysWhatHappened(agent, requests[..position], approved, results, o1[|o0|..], t1[|t0|..])
    requires SaysOne(agent, requests[position], approved, result, o2[|o1|..], t2[|t1|..])
    ensures SaysWhatHappened(agent, requests[..position + 1], approved, results + [result], o2[|o0|..], t2[|t0|..])
  {
    hide SaysOne;
    var i, j, n := |o1| - |o0|, |t1| - |t0|, |results|;
    var all, asked := results + [result], requests[..position + 1];
    assert o2[|o0|..][i..] == o2[|o1|..] && o2[|o0|..][..i] == o1[|o0|..];
    assert t2[|t0|..][j..] == t2[|t1|..] && t2[|t0|..][..j] == t1[|t0|..];
    assert asked[..n] == requests[..position] && all[..n] == results && asked[n] == requests[position];
    assert SaysOne(agent, asked[n], approved, all[n], o2[|o0|..][i..], t2[|t0|..][j..]);
    assert SaysWhatHappened(agent, asked[..n], approved, all[..n], o2[|o0|..][..i], t2[|t0|..][..j]);
  }

  // The first requests of a wave have been answered, and nothing else was done.
  ghost predicate WaveSoFar(
    agent: Agent, requests: seq<ToolRequest>, approved: bool, first: Attempt, a: Attempt,
    results: seq<ToolResult>, begun: seq<Call>, o0: seq<ToolOutcome>, o: seq<ToolOutcome>, t0: seq<string>, t: seq<string>)
  {
    && Ran(first, a, begun)
    && ResultsFor(agent, requests, approved, results) && begun == EffectCalls(results)
    && o0 <= o && t0 <= t && SaysWhatHappened(agent, requests, approved, results, o[|o0|..], t[|t0|..])
  }

  lemma NothingDone(
    agent: Agent, requests: seq<ToolRequest>, approved: bool, a: Attempt, outputs: seq<ToolOutcome>, told: seq<string>)
    ensures WaveSoFar(agent, requests[..0], approved, a, a, [], [], outputs, outputs, told, told)
  {
    RanNothing(a);
  }

  lemma WaveDone(
    agent: Agent, requests: seq<ToolRequest>, approved: bool, first: Attempt, a: Attempt,
    results: seq<ToolResult>, begun: seq<Call>, o0: seq<ToolOutcome>, o: seq<ToolOutcome>, t0: seq<string>, t: seq<string>)
    requires WaveSoFar(agent, requests[..|requests|], approved, first, a, results, begun, o0, o, t0, t)
    ensures Ran(first, a, begun)
    ensures ResultsFor(agent, requests, approved, results) && begun == EffectCalls(results)
    ensures o0 <= o && t0 <= t && SaysWhatHappened(agent, requests, approved, results, o[|o0|..], t[|t0|..])
  {
    assert requests[..|requests|] == requests;
  }

  lemma OneMoreDone(
    agent: Agent, requests: seq<ToolRequest>, position: nat, approved: bool, first: Attempt, a: Attempt, a': Attempt,
    results: seq<ToolResult>, result: ToolResult, begun: seq<Call>, more: seq<Call>,
    o0: seq<ToolOutcome>, o1: seq<ToolOutcome>, o2: seq<ToolOutcome>, t0: seq<string>, t1: seq<string>, t2: seq<string>)
    requires position < |requests| && o1 <= o2 && t1 <= t2
    requires WaveSoFar(agent, requests[..position], approved, first, a, results, begun, o0, o1, t0, t1)
    requires Answered(agent, requests[position], approved, result) && more == EffectCalls([result]) && Ran(a, a', more)
    requires SaysOne(agent, requests[position], approved, result, o2[|o1|..], t2[|t1|..])
    ensures WaveSoFar(agent, requests[..position + 1], approved, first, a', results + [result], begun + more, o0, o2, t0, t2)
  {
    ResultAdded(agent, requests, position, approved, results, result);
    hide SaysWhatHappened, SaysOne, Answered, ResultsFor, Ran, EffectCalls;
    RanOn(first, a, a', begun, more);
    EffectCallsAppend(results, [result]);
    OneMoreSays(agent, requests, position, approved, results, result, o0, o1, o2, t0, t1, t2);
  }

  // ---------------------------------------------------------------------
  // The state an invocation works on
  // ---------------------------------------------------------------------

  predicate NoSystem(messages: seq<Message>) {
    forall m <- messages :: !m.System?
  }

  function FreshTranscript(prompt: string, history: seq<Message>, input: string): seq<Message> {
    [System(prompt)] + HistoryTail(history) + [User(input)]
  }

  lemma FreshShaped(prompt: string, history: seq<Message>, input: string)
    requires NoSystem(history)
    ensures Shaped(FreshTranscript(prompt, history, input), |HistoryTail(history)|, {})
  {
    var messages := FreshTranscript(prompt, history, input);
    assert messages[1 + |HistoryTail(history)|..] == [User(input)];
    assert [User(input)][1..] == [];
    forall i | 1 <= i < |messages| ensures !messages[i].System? {
      if i <= |HistoryTail(history)| {
        assert messages[i] == HistoryTail(history)[i - 1];
        assert HistoryTail(history)[i - 1] in history;
      }
    }
  }

  // `version` and `history` are those of the session as it was loaded; `wave`
  // holds the requests of a paused wave still to be replayed.
  datatype Work = Work(
    cid: Id,
    session: Option<Id>,
    version: nat,
    history: seq<Message>,
    input: string,
    messages: seq<Message>,
    results: seq<ToolResult>,
    iterations: nat,
    tail: nat,
    wave: seq<ToolRequest>)

  // The same invocation, further along: its transcript only grew.
  ghost predicate Continues(w: Work, w': Work) {
    && w'.cid == w.cid && w'.session == w.session && w'.history == w.history && w'.version == w.version
    && w'.input == w.input && w'.tail == w.tail
    && w.iterations <= w'.iterations
    && w.messages <= w'.messages && w.results <= w'.results
  }

  // The transcript starts with the system prompt, the last `tail` messages of the
  // history, and the caller's input.
  ghost predicate Quotes(prompt: string, history: seq<Message>, tail: nat, input: string, messages: seq<Message>) {
    && tail <= |history| && tail + 2 <= |messages|
    && messages[0] == System(prompt)
    && (forall i :: 1 <= i <= tail ==> messages[i] == history[|history| - tail + i - 1])
    && messages[1 + tail] == User(input)
  }

  // The transcript an invocation builds on: a fresh one over its session's
  // history tail, the checkpoint's, or the paused one. `tail` is the history
  // tail the invocation will subtract when it stores its turn.
  ghost predicate StartsFrom(agent: Agent, request: Request, prompt: string, origin: Origin, w: Work) {
    match request
    case Fresh(id, session, input) =>
      && origin == FromRequest(w.history)
      && w.cid == id && w.session == session && w.input == input
      && w.tail == (if |w.history| <= 20 then |w.history| else 20)
      && Quotes(prompt, w.history, w.tail, input, w.messages)
    case Resume(_, id, input) =>
      && input == ""
      && origin.FromCheckpoint? && origin.id == id && origin.record.agentId == agent.id
      && w.cid == id && w.session == origin.record.sessionId && w.input == origin.record.input
      && w.tail == origin.record.historyTail
      && origin.record.iterations <= w.iterations
      && origin.record.messages <= w.messages && origin.record.results <= w.results
    case Continue(rid, session, id, decision) =>
      && origin.FromApproval? && origin.id == id && origin.decision == decision && origin.approval.agentId == agent.id
      && w.cid == rid && w.input == origin.approval.input
      && w.session == (if session.Some? then session else origin.approval.sessionId)
      && w.tail == (if |w.history| <= 20 then |w.history| else 20)
      && origin.approval.iterations <= w.iterations
      && origin.approval.messages <= w.messages && origin.approval.results <= w.results
  }

  lemma StillStartsFrom(agent: Agent, request: Request, prompt: string, origin: Origin, w: Work, w': Work)
    requires StartsFrom(agent, request, prompt, origin, w) && Continues(w, w')
    ensures StartsFrom(agent, request, prompt, origin, w')
  {
    hide FreshTranscript;
  }

  // Event `begin` began this attempt, from where the request asks for.
  ghost predicate BeganAt(agent: Agent, log: seq<Event>, begin: nat, me: Who, request: Request, prompt: string, w: Work) {
    && begin < |log| && log[begin].Begun? && log[begin].who == me && log[begin].cid == w.cid
    && StartsFrom(agent, request, prompt, log[begin].origin, w)
  }

  lemma BegunStays(
    agent: Agent, before: seq<Event>, log: seq<Event>, begin: nat, me: Who, request: Request, prompt: string, w: Work, w': Work)
    requires before <= log && BeganAt(agent, before, begin, me, request, prompt, w) && Continues(w, w')
    ensures BeganAt(agent, log, begin, me, request, prompt, w')
  {
    StillStartsFrom(agent, request, prompt, before[begin].origin, w, w');
    hide StartsFrom;
  }

  lemma ContinuesOn(w: Work, w1: Work, w2: Work)
    requires Continues(w, w1) && Continues(w1, w2)
    ensures Continues(w, w2)
  {
  }

  lemma ContinuesItself(w: Work)
    ensures Continues(w, w)
  {
  }

  lemma FreshBegan(agent: Agent, before: seq<Event>, log: seq<Event>, me: Who, request: Request, prompt: string, loaded: Session, w: Work)
    requires request.Fresh? && log == before + [Begun(me, request.requestId, FromRequest(loaded.messages))]
    requires w == Work(request.requestId, request.sessionId, loaded.version, loaded.messages, request.input,
                       FreshTranscript(prompt, loaded.messages, request.input), [], 0, |HistoryTail(loaded.messages)|, [])
    requires Holds(agent, SessionsAfter(before), request.sessionId, loaded.version, loaded.messages)
    ensures BeganAt(agent, log, |before|, me, request, prompt, w) && SessionReadAt(agent, log, |before|, me, w)
  {
    hide SessionsAfter, FreshTranscript, HistoryTail, Quotes;
    assert log[..|before|] == before;
    QuotedTranscript(prompt, loaded.messages, request.input);
  }

  // A fresh transcript quotes the last twenty messages of the history.
  lemma QuotedTranscript(prompt: string, h: seq<Message>, input: string)
    ensures |HistoryTail(h)| == if |h| <= 20 then |h| else 20
    ensures Quotes(prompt, h, |HistoryTail(h)|, input, FreshTranscript(prompt, h, input))
  {
  }

  // What an attempt knows agrees with the state it works on.
  ghost predicate Agrees(agent: Agent, a: Attempt, w: Work) {
    && a.cid == w.cid && a.claim.None?
    && a.iterations == w.iterations && a.tail == w.tail
    && EffectCalls(w.results) == a.view.begun
    && NoSystem(w.history)
    && (!agent.checkpointing ==> !a.exposed)
  }

  // Between waves: the transcript is complete.
  ghost predicate Working(agent: Agent, a: Attempt, w: Work) {
    && Agrees(agent, a, w) && a.approved.None?
    && Shaped(w.messages, a.view.tail, a.view.replayed)
  }

  // A consumed approval whose wave has not been answered yet.
  ghost predicate Restored(agent: Agent, a: Attempt, w: Work, decision: Decision) {
    && Agrees(agent, a, w) && !a.exposed && a.continued
    && (a.approved.Some? <==> decision.Approve?)
    && (decision.Approve? ==> a.approved.value.requests == w.wave && a.next == 0)
    && Dangling(w.messages, w.wave, a.view.tail, a.view.replayed)
    && w.wave in a.view.replayed
  }

  // Assistant turn just received: its calls are unanswered.
  ghost predicate Asked(agent: Agent, a: Attempt, w: Work, calls: seq<ToolRequest>) {
    && Agrees(agent, a, w) && a.approved.None?
    && Dangling(w.messages, calls, a.view.tail, a.view.replayed)
  }

  lemma AskedMayPause(agent: Agent, a: Attempt, w: Work, calls: seq<ToolRequest>, continuation: Id)
    requires Asked(agent, a, w, calls) && w.iterations < agent.maxIterations
    ensures MayAct(agent, a, Paused(continuation, PauseOf(agent, w, calls))) && a.cid == w.cid
  {
    hide Dangling;
  }

  lemma PauseIs(agent: Agent, w: Work, calls: seq<ToolRequest>)
    ensures PauseOf(agent, w, calls) == Approval(agent.id, calls, w.messages, w.results, w.iterations, w.session, w.input)
  {
  }

  lemma SnapshotIs(agent: Agent, w: Work)
    ensures Snapshot(agent, w) == Checkpoint(agent.id, w.session, w.input, w.messages, w.results, w.iterations, w.tail)
  {
  }

  lemma WorkingMaySave(agent: Agent, a: Attempt, w: Work)
    requires Working(agent, a, w) && w.iterations < agent.maxIterations && agent.checkpointing
    ensures MayAct(agent, a, Saved(Snapshot(agent, w))) && a.cid == w.cid
    ensures Working(agent, a.(exposed := true), w)
  {
    hide Shaped;
  }

  // The model has replied with `wave`, which is the whole answer when empty.
  ghost predicate Replied(agent: Agent, a: Attempt, w: Work, wave: seq<ToolRequest>) {
    && w.messages != [] && w.messages[|w.messages| - 1].Assistant? && w.messages[|w.messages| - 1].calls == wave
    && if wave == [] then Working(agent, a, w) else Asked(agent, a, w, wave)
  }

  lemma ReplyAppended(messages: seq<Message>, text: string, wave: seq<ToolRequest>, tail: nat, replayed: set<seq<ToolRequest>>)
    requires Shaped(messages, tail, replayed)
    ensures wave == [] ==> Shaped(messages + [Assistant(text, wave)], tail, replayed)
    ensures wave != [] ==> Dangling(messages + [Assistant(text, wave)], wave, tail, replayed)
  {
    var longer := messages + [Assistant(text, wave)];
    assert longer[..|longer| - 1] == messages;
    if wave == [] {
      GroupIsTurn(text, wave, [], replayed);
      assert [Assistant(text, wave)] + [] == [Assistant(text, wave)];
      ShapedExtend(messages, [Assistant(text, wave)], tail, replayed);
    }
  }

  // The wave that was dangling is answered, and its effects are accounted for.
  lemma WaveAnswered(agent: Agent, a: Attempt, a': Attempt, w0: Work, w: Work, wave: seq<ToolRequest>, results: seq<ToolResult>, answers: seq<Message>)
    requires Agrees(agent, a, w0) && Dangling(w0.messages, wave, a.view.tail, a.view.replayed)
    requires Answers(wave, answers, a.view.replayed)
    requires a' == a.(approved := None, next := a'.next, view := a.view.(begun := a.view.begun + EffectCalls(results)))
    requires w == w0.(messages := w0.messages + answers, results := w0.results + results, wave := w.wave)
    ensures Working(agent, a', w) && Continues(w0, w)
  {
    hide Dangling, Shaped, Answers;
    DanglingAnswered(w0.messages, wave, answers, a.view.tail, a.view.replayed);
    EffectCallsAppend(w0.results, results);
  }

  // Each call of the wave has one result and one tool message with its text, in
  // order; a replayed wave's messages carry no call id.
  ghost predicate WaveReported(w0: Work, w: Work, wave: seq<ToolRequest>, withIds: bool) {
    && w0.results <= w.results && |w.results| == |w0.results| + |wave|
    && w0.messages <= w.messages && |w.messages| == |w0.messages| + |wave|
    && forall i :: 0 <= i < |wave| ==>
         w.messages[|w0.messages| + i] == Tool(if withIds then Some(wave[i].id) else None, wave[i].name, w.results[|w0.results| + i].text)
  }

  lemma AnswersReport(
    w0: Work, w: Work, wave: seq<ToolRequest>, results: seq<ToolResult>, answers: seq<Message>, withIds: bool, replayed: set<seq<ToolRequest>>)
    requires |results| == |wave| == |answers| && (withIds || wave in replayed)
    requires forall i :: 0 <= i < |wave| ==>
               && results[i].tool == wave[i].name
               && answers[i] == Tool(if withIds then Some(wave[i].id) else None, wave[i].name, results[i].text)
    requires w.messages == w0.messages + answers && w.results == w0.results + results
    ensures Answers(wave, answers, replayed) && WaveReported(w0, w, wave, withIds) && w.results[|w0.results|..] == results
  {
  }

  // A finished conversation: the last message is an assistant's. Either it asks
  // for nothing, or the iteration limit cut its unanswered calls.
  ghost predicate Finished(agent: Agent, a: Attempt, w: Work) {
    && Agrees(agent, a, w) && w.iterations <= agent.maxIterations
    && w.messages != [] && w.messages[|w.messages| - 1].Assistant?
    && (var calls := w.messages[|w.messages| - 1].calls;
        if calls == [] then Shaped(w.messages, a.view.tail, a.view.replayed)
        else w.iterations == agent.maxIterations && Dangling(w.messages, calls, a.view.tail, a.view.replayed))
  }

  lemma FinishedHasNoSystem(agent: Agent, a: Attempt, w: Work)
    requires Finished(agent, a, w)
    ensures NoSystem(StoredTurn(w))
  {
    var n := |w.messages| - 1;
    assert forall i :: 1 <= i < n ==> w.messages[..n][i] == w.messages[i];
    forall m | m in Suffix(w.messages, 1 + w.tail) ensures !m.System? {
      var k :| 0 <= k < |Suffix(w.messages, 1 + w.tail)| && Suffix(w.messages, 1 + w.tail)[k] == m;
      assert m == w.messages[1 + w.tail + k];
    }
  }

  function Snapshot(agent: Agent, w: Work): Checkpoint {
    Checkpoint(agent.id, w.session, w.input, w.messages, w.results, w.iterations, w.tail)
  }

  // What a pause stores.
  function PauseOf(agent: Agent, w: Work, calls: seq<ToolRequest>): Approval {
    Approval(agent.id, calls, w.messages, w.results, w.iterations, w.session, w.input)
  }

  // What a finished invocation stores in its session.
  function StoredTurn(w: Work): seq<Message> {
    w.history + Suffix(w.messages, 1 + w.tail)
  }

  // Tool messages for a wave of the current conversation carry the call id.
  function ToolMessages(results: seq<ToolResult>): (messages: seq<Message>)
    requires forall r <- results :: !r.DeniedByCaller?
    ensures |messages| == |results|
    ensures forall i :: 0 <= i < |results| ==>
              messages[i] == Tool(Some(results[i].callId), results[i].tool, results[i].text)
  {
    seq(|results|, i requires 0 <= i < |results| => Tool(Some(results[i].callId), results[i].tool, results[i].text))
  }

  // Tool messages for a replayed wave do not.
  function ReplayedMessages(results: seq<ToolResult>): (messages: seq<Message>)
    ensures |messages| == |results|
    ensures forall i :: 0 <= i < |results| ==> messages[i] == Tool(None, results[i].tool, results[i].text)
  {
    seq(|results|, i requires 0 <= i < |results| => Tool(None, results[i].tool, results[i].text))
  }

  function CallerDenials(requests: seq<ToolRequest>): (results: seq<ToolResult>)
    ensures |results| == |requests| && EffectCalls(results) == []
    ensures forall i :: 0 <= i < |requests| ==>
              results[i] == DeniedByCaller(requests[i].name, "denied by caller: approval denied")
  {
    if requests == [] then []
    else
      var results :=
        CallerDenials(requests[..|requests| - 1]) +
        [DeniedByCaller(requests[|requests| - 1].name, "denied by caller: approval denied")];
      assert results[..|results| - 1] == CallerDenials(requests[..|requests| - 1]);
      results
  }

  // ---------------------------------------------------------------------
  // The stores and the books
  // ---------------------------------------------------------------------

  // The store behind the records on the books.
  function Contents<T>(owned: map<Id, Owned<T>>): map<Id, T> {
    map id | id in owned :: owned[id].record
  }

  lemma ContentsPut<T>(owned: map<Id, Owned<T>>, id: Id, o: Owned<T>)
    ensures Contents(owned[id := o]) == Contents(owned)[id := o.record]
  {
  }

  lemma ContentsDrop<T>(owned: map<Id, Owned<T>>, id: Id)
    ensures Contents(owned - {id}) == Contents(owned) - {id}
  {
  }

  lemma ConsumedIsRestored(agent: Agent, l: Ledger, me: Who, id: Id, decision: Decision, w: Work)
    requires Kept(agent, l) && id in l.approvals && l.approvals[id].record.agentId == agent.id
    requires var a := l.approvals[id].record;
             && w.messages == a.messages && w.results == a.results && w.iterations == a.iterations
             && w.tail == 0 && w.wave == a.requests && w.history == []
    ensures w.iterations < agent.maxIterations
    ensures me !in l.attempts ==> Allowed(agent, l, Begun(me, w.cid, FromApproval(id, l.approvals[id].record, decision)))
    ensures var l' := Apply(agent, l, Begun(me, w.cid, FromApproval(id, l.approvals[id].record, decision)));
            && me in l'.attempts && Restored(agent, l'.attempts[me], w, decision)
            && l'.checkpoints == l.checkpoints && l'.approvals == l.approvals - {id}
  {
    var o := l.approvals[id];
    assert ApprovalKept(agent, l, o);
    DanglingMonotone(w.messages, w.wave, o.view.tail, o.view.replayed, o.view.replayed + {w.wave});
    hide Dangling;
  }

  lemma RecordIsResumed(agent: Agent, l: Ledger, me: Who, id: Id, w: Work)
    requires Kept(agent, l) && me !in l.attempts && id in l.checkpoints && l.checkpoints[id].record.agentId == agent.id
    requires var c := l.checkpoints[id].record;
             w == Work(id, c.sessionId, 0, [], c.input, c.messages, c.results, c.iterations, c.historyTail, [])
    ensures w.iterations < agent.maxIterations
    ensures var e := Begun(me, id, FromCheckpoint(id, l.checkpoints[id].record));
            var l' := Apply(agent, l, e);
            && Allowed(agent, l, e)
            && me in l'.attempts && Working(agent, l'.attempts[me], w) && !l'.attempts[me].continued
            && l'.checkpoints == l.checkpoints && l'.approvals == l.approvals
  {
    hide Shaped;
    assert CheckpointKept(agent, l, l.checkpoints[id]);
  }

  // A session that is written holds messages but no system prompt.
  predicate PlainSession(e: Event) {
    match e
    case By(_, SessionStored(_, stored)) => NoSystem(stored.messages)
    case SessionWritten(_, Some(stored)) => NoSystem(stored.messages)
    case _ => true
  }

  lemma SessionLeavesRecords(agent: Agent, l: Ledger, e: Event)
    requires WritesSession(e) && Allowed(agent, l, e)
    ensures Apply(agent, l, e).checkpoints == l.checkpoints && Apply(agent, l, e).approvals == l.approvals
  {
  }

  lemma SessionIsLoaded(agent: Agent, a: Attempt, w0: Work, w: Work, decision: Decision, loaded: Session)
    requires Restored(agent, a, w0, decision) && NoSystem(loaded.messages)
    requires w == w0.(version := loaded.version, history := loaded.messages, tail := |HistoryTail(loaded.messages)|)
    ensures Restored(agent, Moved(agent, a, SessionRead(loaded.messages)), w, decision)
  {
    hide Dangling;
  }

  // The attempt of `me` is as it was.
  ghost predicate SameAttempt(l: Ledger, l': Ledger, me: Who) {
    && (me in l'.attempts <==> me in l.attempts)
    && (me in l.attempts ==> l'.attempts[me] == l.attempts[me])
  }

  lemma OthersLeaveAttempt(agent: Agent, l: Ledger, e: Event, me: Who)
    requires Allowed(agent, l, e) && !Own(e, me)
    ensures SameAttempt(l, Apply(agent, l, e), me)
  {
    hide MayAct, AllowedBegin, Begin, Moved, CheckpointsAfter, ApprovalsAfter, ChainsAfter, GrantsAfter, StartsAfter;
  }

  // The session holds this now; without a session there is nothing to hold.
  ghost predicate Holds(agent: Agent, store: map<Id, Session>, session: Option<Id>, version: nat, messages: seq<Message>) {
    if agent.sessions && session.Some? then session.value in store && store[session.value] == Session(version, messages)
    else messages == []
  }

  // At event r this invocation read what its session held then.
  ghost predicate SessionReadAt(agent: Agent, log: seq<Event>, r: nat, me: Who, w: Work) {
    && r < |log|
    && ((log[r].Begun? && log[r].who == me && log[r].origin == FromRequest(w.history)) || log[r] == By(me, SessionRead(w.history)))
    && Holds(agent, SessionsAfter(log[..r]), w.session, w.version, w.history)
  }

  lemma ReadStays(agent: Agent, before: seq<Event>, log: seq<Event>, r: nat, me: Who, w: Work, w': Work)
    requires before <= log && SessionReadAt(agent, before, r, me, w)
    requires w'.session == w.session && w'.version == w.version && w'.history == w.history
    ensures SessionReadAt(agent, log, r, me, w')
  {
    assert before[..r] == log[..r];
  }

  // Event k stored the turn, over the version that was loaded.
  ghost predicate TurnStored(log: seq<Event>, k: nat, me: Who, w: Work) {
    && k < |log| && w.session.Some?
    && log[k] == By(me, SessionStored(w.session.value, Session(w.version + 1, StoredTurn(w))))
    && w.session.value in SessionsAfter(log[..k]) && SessionsAfter(log[..k])[w.session.value].version == w.version
  }

  lemma TurnStays(before: seq<Event>, log: seq<Event>, k: nat, me: Who, w: Work)
    requires before <= log && TurnStored(before, k, me, w)
    ensures TurnStored(log, k, me, w)
  {
    assert before[..k] == log[..k];
  }

  // What an invocation leaves in its session: the messages the session held when
  // the invocation read it, followed by the messages since the history tail, one
  // version up from what it read.
  ghost predicate LeavesTurn(agent: Agent, log: seq<Event>, from: nat, me: Who, w: Work) {
    agent.sessions && w.session.Some? ==>
      exists r, k :: from <= r < k < |log| && SessionReadAt(agent, log, r, me, w) && LeftAt(log, k, me, w)
  }

  ghost predicate LeftAt(log: seq<Event>, k: nat, me: Who, w: Work) {
    && k < |log| && w.session.Some? && log[k].By? && log[k].who == me
    && var store, store' := SessionsAfter(log[..k]), SessionsAfter(log[..k + 1]);
       && w.session.value in store && store[w.session.value].version == w.version
       && store' == store[w.session.value := Session(w.version + 1,
            w.history + if 1 + w.tail <= |w.messages| then w.messages[1 + w.tail..] else [])]
  }

  lemma StoredIsLeft(log: seq<Event>, k: nat, me: Who, w: Work)
    requires TurnStored(log, k, me, w)
    ensures LeftAt(log, k, me, w)
  {
    assert log[..k + 1] == log[..k] + [log[k]];
    SessionsStep(log[..k], log[k]);
    hide SessionsAfter;
  }

  lemma TurnIsLeft(agent: Agent, before: seq<Event>, log: seq<Event>, from: nat, r: nat, k: nat, me: Who, w0: Work, w: Work)
    requires before <= log && from <= r && SessionReadAt(agent, before, r, me, w0) && |before| <= k && TurnStored(log, k, me, w)
    requires w.session == w0.session && w.version == w0.version && w.history == w0.history
    ensures LeavesTurn(agent, log, from, me, w)
  {
    hide SessionReadAt, TurnStored, LeftAt;
    assert r < |before| && k < |log| by { ReadIsEarlier(agent, before, r, me, w0); StoredIsEarlier(log, k, me, w); }
    ReadStays(agent, before, log, r, me, w0, w);
    StoredIsLeft(log, k, me, w);
  }

  lemma ReadIsEarlier(agent: Agent, log: seq<Event>, r: nat, me: Who, w: Work)
    requires SessionReadAt(agent, log, r, me, w)
    ensures r < |log|
  {
  }

  lemma StoredIsEarlier(log: seq<Event>, k: nat, me: Who, w: Work)
    requires TurnStored(log, k, me, w)
    ensures k < |log|
  {
  }

  lemma LeavesTurnStill(agent: Agent, before: seq<Event>, log: seq<Event>, from: nat, me: Who, w: Work)
    requires before <= log && LeavesTurn(agent, before, from, me, w)
    ensures LeavesTurn(agent, log, from, me, w)
  {
    if agent.sessions && w.session.Some? {
      var r, k :| from <= r < k < |before| && SessionReadAt(agent, before, r, me, w) && LeftAt(before, k, me, w);
      ReadStays(agent, before, log, r, me, w, w);
      assert before[..k] == log[..k] && before[..k + 1] == log[..k + 1];
      hide SessionReadAt, SessionsAfter;
      assert LeftAt(log, k, me, w);
    }
  }

  // The conversation of `w` ended as the last but one event left the attempt,
  // and its turn was stored under the guard of the version it had loaded.
  ghost predicate Concluded(agent: Agent, log: seq<Event>, from: nat, me: Who, last: Attempt, w: Work) {
    && from < |log| && log[|log| - 1] == By(me, Ended)
    && (var l := Replay(agent, log[..|log| - 1]); me in l.attempts && l.attempts[me] == last)
    && Finished(agent, last, w)
    && (agent.sessions && w.session.Some? ==>
          exists k :: from <= k < |log| && TurnStored(log, k, me, w))
  }

  // The turn stored is the turn since the history that the chain was opened on,
  // at event `opener`, exactly when the tail subtracted has that history's
  // length.
  ghost predicate StoresItsTurn(agent: Agent, log: seq<Event>, opener: nat, last: Attempt, w: Work) {
    && Opens(agent, log, opener, last.chain)
    && (var built := |HistoryTail(log[opener].origin.history)|;
        && 1 + built < |w.messages|
        && (StoredTurn(w) == w.history + w.messages[1 + built..] <==> w.tail == built))
  }

  lemma ChainTailOf(agent: Agent, log: seq<Event>, me: Who, last: Attempt, w: Work) returns (opener: nat)
    requires Accepted(agent, log) && log != [] && log[|log| - 1] == By(me, Ended)
    requires var l := Replay(agent, log[..|log| - 1]); me in l.attempts && l.attempts[me] == last
    requires Finished(agent, last, w)
    ensures StoresItsTurn(agent, log, opener, last, w)
  {
    var n := |log| - 1;
    LastStep(agent, log);
    AcceptedIsKept(agent, log[..n]);
    assert AttemptKept(agent, Replay(agent, log[..n]), last);
    hide Accepted, Replay, Kept, Opens, Working;
    opener := ChainTail(agent, log[..n], last.chain);
    OpensLonger(agent, log, n, opener, last.chain);
    var built := |HistoryTail(log[opener].origin.history)|;
    assert last.view.tail == built;
    if StoredTurn(w) == w.history + w.messages[1 + built..] {
      assert |Suffix(w.messages, 1 + w.tail)| == |w.messages[1 + built..]|;
    }
  }

  class AdkRuntime {
    const agent: Agent
    var checkpoints: map<Id, Checkpoint>
    var approvals: map<Id, Approval>
    var sessions: map<Id, Session>
    // Bookkeeping of the model: who stored what, against which the actions of
    // other invocations are checked.
    var books: Ledger
    ghost var log: seq<Event>
    // The awaits and tool bodies that failed or ran out of time, and what the
    // model and the tools returned.
    ghost var faults: nat
    ghost var replies: seq<ModelReply>
    ghost var outputs: seq<ToolOutcome>
    // What was published in the registry, and what it told of earlier results.
    ghost var published: seq<(ToolRequest, string)>
    ghost var told: seq<string>

    ghost predicate Valid()
      reads this`checkpoints, this`approvals, this`sessions, this`books, this`log
      ensures Valid() ==> WellFormedAgent(agent)
    {
      && WellFormedAgent(agent)
      && Accepted(agent, log)
      && books == Replay(agent, log)
      && Kept(agent, books)
      && checkpoints == Contents(books.checkpoints)
      && approvals == Contents(books.approvals)
      && sessions == SessionsAfter(log)
      && forall id <- sessions :: NoSystem(sessions[id].messages)
    }

    // The attempt `me` is under way.
    ghost predicate Runs(me: Who)
      reads this`books
    {
      me in books.attempts
    }

    ghost function Mine(me: Who): Attempt
      requires Runs(me)
      reads this`books
    {
      books.attempts[me]
    }

    constructor (agent: Agent)
      requires WellFormedAgent(agent)
      ensures Valid() && this.agent == agent
      ensures log == [] && checkpoints == map[] && approvals == map[] && sessions == map[]
    {
      this.agent := agent;
      checkpoints, approvals, sessions, log := map[], map[], map[], [];
      books, faults, replies, outputs, published, told := EmptyLedger, 0, [], [], [], [];
    }

    // -------------------------------------------------------------------
    // Single actions
    // -------------------------------------------------------------------

    // Enter an action into the books.
    method Note(e: Event)
      requires Accepted(agent, log) && books == Replay(agent, log) && Kept(agent, books) && Allowed(agent, books, e)
      modifies this`log, this`books
      ensures log == old(log) + [e]
      ensures Accepted(agent, log) && books == Replay(agent, log) && Kept(agent, books)
      ensures books == Apply(agent, old(books), e)
      ensures !WritesSession(e) ==> SessionsAfter(log) == SessionsAfter(old(log))
    {
      Extend(agent, log, e);
      StepKeeps(agent, books, e);
      SessionsStep(log, e);
      hide SessionsAfter;
      books := Apply(agent, books, e);
      log := log + [e];
    }

    // An action of this invocation that leaves the stores alone.
    method Act(me: Who, act: Act)
      requires Valid() && Runs(me) && MayAct(agent, Mine(me), act)
      requires !act.Saved? && !act.Deleted? && !act.Paused? && !act.SessionStored?
      modifies this`log, this`books
      ensures Valid() && log == old(log) + [By(me, act)]
      ensures Runs(me) <==> !act.Ended?
      ensures !act.Ended? ==> Mine(me) == Moved(agent, old(Mine(me)), act)
    {
      hide Replay, Accepted, Kept, MayAct, Moved, ChainsAfter, GrantsAfter, StartsAfter, SessionsAfter;
      Note(By(me, act));
    }

    // Anybody else's action: other attempts of this agent, other agents, records
    // that expire, and sessions that are written or removed.
    method Interfere(me: Who)
      requires Valid()
      modifies this`log, this`books, this`checkpoints, this`approvals, this`sessions
      ensures Valid() && old(log) <= log && NoneOwn(log, |old(log)|, me)
      ensures SameAttempt(old(books), books, me)
      ensures (Runs(me) <==> old(Runs(me))) && (Runs(me) ==> Mine(me) == old(Mine(me)))
    {
      var steps: nat := *;
      while steps > 0
        invariant Valid() && old(log) <= log && NoneOwn(log, |old(log)|, me)
        invariant SameAttempt(old(books), books, me)
      {
        hide Valid, Replay, Accepted, Kept, Apply, Allowed, PlainSession;
        var e := AnyEvent();
        if !Own(e, me) && Allowed(agent, books, e) && PlainSession(e) {
          OthersLeaveAttempt(agent, books, e, me);
          Other(e);
        }
        steps := steps - 1;
      }
    }

    method AnyEvent() returns (e: Event) {
      e := *;
    }

    method Other(e: Event)
      requires Valid() && Allowed(agent, books, e) && PlainSession(e)
      modifies this`log, this`books, this`checkpoints, this`approvals, this`sessions
      ensures Valid() && log == old(log) + [e] && books == Apply(agent, old(books), e)
      ensures WritesSession(e) ==> checkpoints == old(checkpoints) && approvals == old(approvals)
    {
      hide Replay, Accepted, Kept, Apply, Allowed, SessionsAfter;
      SessionsStep(log, e);
      if WritesSession(e) {
        SessionLeavesRecords(agent, books, e);
      }
      Note(e);
      checkpoints, approvals := Contents(books.checkpoints), Contents(books.approvals);
      match e {
        case By(_, SessionStored(id, stored)) => sessions := sessions[id := stored];
        case SessionWritten(id, Some(stored)) => sessions := sessions[id := stored];
        case SessionWritten(id, None) => sessions := sessions - {id};
        case _ =>
      }
    }

    // How an await on a store, the model or the registry goes: by the deadline, or
    // with the dependency's own error, which may or may not be retryable, it can
    // fail, and have taken effect all the same.
    method Await() returns (landed: bool, failure: Option<Failure>)
      modifies this`faults
      ensures faults == old(faults) + if failure.Some? then 1 else 0
      ensures failure.None? ==> landed
      ensures failure.Some? ==> Dependency(failure.value)
    {
      landed, failure := *, None;
      var answered: bool := *;
      if !answered || !landed {
        var timedOut: bool, retryable: bool := *, *;
        failure := Some(if timedOut then DeadlineExceeded else Raised(retryable));
        faults := faults + 1;
      }
    }

    // The registry's answer to a claim: a grant goes on record, also when the
    // answer is lost.
    method ClaimOperation(me: Who, request: ToolRequest) returns (failure: Option<Failure>, granted: bool, prior: string)
      requires Valid() && Runs(me) && Mine(me).claim.None?
      modifies this`log, this`books, this`checkpoints, this`approvals, this`sessions, this`faults, this`told
      ensures told == old(told) + if granted then [] else [prior]
      ensures Valid() && Runs(me) && Quiet(old(log), log, me)
      ensures Mine(me) == old(Mine(me)).(claim := if granted then request.key else None)
      ensures failure.None? && request.key.None? ==> granted
      ensures granted && request.key.Some? ==> |log| > |old(log)| && log[|log| - 1] == By(me, Claimed(request.key.value))
      ensures failure.Some? ==> Dependency(failure.value)
      ensures faults >= old(faults) && (failure.Some? <==> faults > old(faults))
    {
      hide Valid, Quiet;
      ghost var start := log;
      Interfere(me);
      ghost var before := log;
      var landed;
      landed, failure := Await();
      granted, prior := *, *;
      granted := landed && (granted || request.key.None?);
      told := told + if granted then [] else [prior];
      if granted && request.key.Some? {
        Act(me, Claimed(request.key.value));
      }
      BookkeepingOnly(start, before, log, me);
    }

    method RunTool(request: ToolRequest) returns (outcome: ToolOutcome)
      modifies this`faults, this`outputs
      ensures outputs == old(outputs) + [outcome]
      ensures faults == old(faults) + if outcome.OutOfTime? then 1 else 0
    {
      outcome := *;
      outputs := outputs + [outcome];
      faults := faults + if outcome.OutOfTime? then 1 else 0;
    }

    // Publishing a result can fail with an unknown outcome.
    method RecordOperation(request: ToolRequest, text: string) returns (ok: bool)
      modifies this`faults, this`published
      ensures faults == old(faults) + if ok then 0 else 1
      ensures published == old(published) + [(request, text)]
    {
      published := published + [(request, text)];
      ok := *;
      faults := faults + if ok then 0 else 1;
    }

    // -------------------------------------------------------------------
    // One tool wave
    // -------------------------------------------------------------------

    method ExecuteTools(me: Who, requests: seq<ToolRequest>, skipApproval: bool, attempted0: seq<string>)
      returns (failure: Option<Failure>, results: seq<ToolResult>, attempted: seq<string>, ghost begun: seq<Call>)
      requires Valid() && Runs(me) && Mine(me).claim.None?
      requires !WaveIsReplaySafe(agent, requests) ==> !Mine(me).exposed
      requires skipApproval == Mine(me).approved.Some?
      requires if skipApproval then Mine(me).approved.value.requests == requests && Mine(me).next == 0
               else Mine(me).iterations < agent.maxIterations
      modifies this
      ensures Valid() && Runs(me) && old(log) <= log && GoesOn(log, |old(log)|, me)
      ensures failure.None? ==> ResultsFor(agent, requests, skipApproval, results) && begun == EffectCalls(results)
      ensures old(outputs) <= outputs && old(told) <= told
      ensures failure.None? ==>
                SaysWhatHappened(agent, requests, skipApproval, results, outputs[|old(outputs)|..], told[|old(told)|..])
      ensures failure.None? ==> Ran(old(Mine(me)), Mine(me), begun)
      ensures attempted0 <= attempted && (attempted == [] ==> NoEffects(agent, log, |old(log)|, me))
      ensures attempted0 == [] && attempted != [] ==> !NoEffects(agent, log, |old(log)|, me)
      ensures failure == Some(RetrySuppressed) ==> attempted != []
      ensures faults >= old(faults) && (failure.Some? <==> faults > old(faults))
    {
      hide *;
      failure, results, attempted, begun := None, [], attempted0, [];
      NothingYet(agent, log, me);
      ghost var first := Mine(me);
      NothingDone(agent, requests, skipApproval, first, outputs, told);
      for position := 0 to |requests|
        invariant Valid() && Runs(me) && old(log) <= log && GoesOn(log, |old(log)|, me)
        invariant skipApproval ==> Mine(me).next <= position
        invariant faults == old(faults)
        invariant old(outputs) <= outputs && old(told) <= told
        invariant WaveSoFar(agent, requests[..position], skipApproval, first, Mine(me), results, begun,
                            old(outputs), outputs, old(told), told)
        invariant attempted0 <= attempted && (attempted == [] ==> NoEffects(agent, log, |old(log)|, me))
        invariant attempted0 == [] && attempted != [] ==> !NoEffects(agent, log, |old(log)|, me)
      {
        var request := requests[position];
        var result: ToolResult, stop: Option<Failure>;
        ghost var more: seq<Call>;
        ghost var before, logged, heard, known := Mine(me), log, outputs, told;
        StillInTurn(first, before, requests, position, skipApproval, results, begun, old(outputs), outputs, old(told), told);
        stop, result, attempted, more := ExecuteOne(me, request, position, skipApproval, attempted);
        GoesOnJoined(logged, log, |old(log)|, me);
        NoEffectsJoined(agent, logged, log, |old(log)|, me);
        if stop.Some? {
          return stop, results, attempted, begun;
        }
        OneMoreDone(agent, requests, position, skipApproval, first, before, Mine(me), results, result, begun, more,
                    old(outputs), heard, outputs, old(told), known, told);
        begun, results := begun + more, results + [result];
      }
      WaveDone(agent, requests, skipApproval, first, Mine(me), results, begun, old(outputs), outputs, old(told), told);
    }

    lemma StillInTurn(
      first: Attempt, a: Attempt, requests: seq<ToolRequest>, position: nat, skipApproval: bool,
      results: seq<ToolResult>, begun: seq<Call>, o0: seq<ToolOutcome>, o: seq<ToolOutcome>, t0: seq<string>, t: seq<string>)
      requires position < |requests| && first.claim.None? && skipApproval == first.approved.Some?
      requires WaveSoFar(agent, requests[..position], skipApproval, first, a, results, begun, o0, o, t0, t)
      requires !WaveIsReplaySafe(agent, requests) ==> !first.exposed
      requires if skipApproval then first.approved.value.requests == requests && a.next <= position
               else first.iterations < agent.maxIterations
      ensures a.claim.None? && skipApproval == a.approved.Some? && InTurn(a, requests[position], position)
      ensures HasEffect(agent, requests[position].name) ==> !a.exposed
    {
    }

    // One request of a wave: validation, policy, deduplication, execution.
    method ExecuteOne(me: Who, request: ToolRequest, position: nat, skipApproval: bool, attempted0: seq<string>)
      returns (failure: Option<Failure>, result: ToolResult, attempted: seq<string>, ghost begun: seq<Call>)
      requires Valid() && Runs(me) && Mine(me).claim.None?
      requires HasEffect(agent, request.name) ==> !Mine(me).exposed
      requires skipApproval == Mine(me).approved.Some?
      requires InTurn(Mine(me), request, position)
      modifies this
      ensures Valid() && Runs(me) && old(log) <= log && GoesOn(log, |old(log)|, me)
      ensures skipApproval ==> Mine(me).next <= position + 1
      ensures failure.None? ==> Answered(agent, request, skipApproval, result) && begun == EffectCalls([result])
      ensures failure.None? ==> Ran(old(Mine(me)), Mine(me), begun)
      ensures attempted0 <= attempted && (attempted == [] ==> NoEffects(agent, log, |old(log)|, me))
      ensures attempted0 == [] && attempted != [] ==> !NoEffects(agent, log, |old(log)|, me)
      ensures failure == Some(RetrySuppressed) ==> attempted != []
      ensures old(outputs) <= outputs && old(told) <= told
      ensures failure.None? ==>
                SaysOne(agent, request, skipApproval, result, outputs[|old(outputs)|..], told[|old(told)|..])
      ensures faults >= old(faults) && (failure.Some? <==> faults > old(faults))
    {
      hide Valid, Replay, Accepted, Permitted, NoEffects, GoesOn;
      NothingYet(agent, log, me);
      failure, attempted, begun := None, attempted0, [];
      RanNothing(Mine(me));
      var refusal := Screen(agent, request, skipApproval);
      if refusal.Some? {
        result := refusal.value;
        return;
      }
      failure, result, attempted, begun := ExecutePermitted(me, request, position, attempted0);
    }

    // A request that passed the checks: claimed first if it may have an effect.
    method ExecutePermitted(me: Who, request: ToolRequest, position: nat, attempted0: seq<string>)
      returns (failure: Option<Failure>, result: ToolResult, attempted: seq<string>, ghost begun: seq<Call>)
      requires Valid() && Runs(me) && Mine(me).claim.None?
      requires HasEffect(agent, request.name) ==> !Mine(me).exposed
      requires Permitted(agent, request, Mine(me).approved.Some?)
      requires InTurn(Mine(me), request, position)
      modifies this
      ensures Valid() && Runs(me) && old(log) <= log && GoesOn(log, |old(log)|, me)
      ensures old(Mine(me)).approved.Some? ==> Mine(me).next <= position + 1
      ensures failure.None? ==> Answered(agent, request, old(Mine(me)).approved.Some?, result) && begun == EffectCalls([result])
      ensures failure.None? ==> Ran(old(Mine(me)), Mine(me), begun)
      ensures attempted0 <= attempted && (attempted == [] ==> NoEffects(agent, log, |old(log)|, me))
      ensures attempted0 == [] && attempted != [] ==> !NoEffects(agent, log, |old(log)|, me)
      ensures failure == Some(RetrySuppressed) ==> attempted != []
      ensures failure.None? ==>
                if result.Executed? then |outputs| == |old(outputs)| + 1 && old(outputs) <= outputs && Says(outputs[|old(outputs)|], result.text)
                else outputs == old(outputs) && result.Deduplicated?
      ensures old(outputs) <= outputs && old(told) <= told
      ensures failure.None? ==> told == old(told) + if result.Deduplicated? then [result.text] else []
      ensures failure.None? ==>
                published == if agent.registry && HasEffect(agent, request.name) && result.Executed?
                             then old(published) + [(request, result.text)] else old(published)
      ensures faults >= old(faults) && (failure.Some? <==> faults > old(faults))
    {
      hide Valid, Replay, Accepted, NoEffects, GoesOn, Quiet;
      NothingYet(agent, log, me);
      failure, attempted, begun := None, attempted0, [];
      RanNothing(Mine(me));
      ghost var start := log;
      var effect := Classify(agent, request.name);
      assert Permitted(agent, request, Mine(me).approved.Some?);
      if agent.registry && effect != ReadOnly {
        var error, granted, prior := ClaimOperation(me, request);
        QuietAlone(agent, start, log, me);
        if error.Some? {
          return error, Deduplicated(request.name, request.id, prior), attempted, begun;
        }
        if !granted {
          result := Deduplicated(request.name, request.id, prior);
          return;
        }
      }
      hide Permitted;
      ghost var claimed := log;
      failure, result, attempted, begun := RunBody(me, request, position, effect, attempted0);
      NoEffectsJoined(agent, claimed, log, |start|, me);
      GoesOnJoined(claimed, log, |start|, me);
    }

    // The request is next in the approved wave, or the loop has an iteration.
    ghost predicate InTurn(a: Attempt, request: ToolRequest, position: nat) {
      if a.approved.Some?
      then a.next <= position < |a.approved.value.requests| && a.approved.value.requests[position] == request
      else a.iterations < agent.maxIterations
    }

    // The part of one request that runs the body and publishes its result.
    method RunBody(me: Who, request: ToolRequest, position: nat, effect: SideEffect, attempted0: seq<string>)
      returns (failure: Option<Failure>, result: ToolResult, attempted: seq<string>, ghost begun: seq<Call>)
      requires Valid() && Runs(me) && AllowedStart(agent, Mine(me), request, position)
      requires effect == Classify(agent, request.name)
      requires effect == ReadOnly ==> Mine(me).claim.None?
      modifies this
      ensures Valid() && Runs(me) && old(log) <= log && GoesOn(log, |old(log)|, me)
      ensures BeganOne(old(log), log, me, request, position)
      ensures failure.None? ==> Ran(old(Mine(me)).(claim := None), Mine(me), begun)
      ensures old(Mine(me)).approved.Some? ==> Mine(me).next == position + 1
      ensures failure.None? ==> Answered(agent, request, old(Mine(me)).approved.Some?, result) && begun == EffectCalls([result])
      ensures attempted0 <= attempted
      ensures attempted == [] ==> !HasEffect(agent, request.name) && NoEffects(agent, log, |old(log)|, me)
      ensures attempted0 == [] && attempted != [] ==> !NoEffects(agent, log, |old(log)|, me)
      ensures failure == Some(RetrySuppressed) ==> attempted != []
      ensures |outputs| == |old(outputs)| + 1 && old(outputs) <= outputs && told == old(told)
      ensures failure.None? ==> result.Executed? && Says(outputs[|old(outputs)|], result.text)
      ensures failure.None? ==>
                published == if agent.registry && effect != ReadOnly then old(published) + [(request, result.text)] else old(published)
      ensures faults >= old(faults) && (failure.Some? <==> faults > old(faults))
    {
      hide Valid, Replay, Accepted, NoneOwn, BeganOne, GoesOn, NoEffects;
      failure, attempted := None, attempted0;
      ghost var start := log;
      var name := request.name;
      if effect != ReadOnly && name !in attempted0 {
        attempted := attempted0 + [name];
      }
      Interfere(me);
      ghost var before := log;
      assert AllowedStart(agent, Mine(me), request, position) && effect == Classify(agent, name);
      assert Permitted(agent, request, Mine(me).approved.Some?);
      begun := Effects(agent, Started(request, position));
      ghost var approved := Mine(me).approved.Some?;
      hide Permitted, HasEffect, Answered, Says;
      Act(me, Started(request, position));
      ghost var after := log;
      var outcome := RunTool(request);
      Interfere(me);
      OneBody(agent, start, before, after, log, me, request, position);
      var text := TextOf(outcome);
      result := Executed(name, request.id, text, effect);
      ExecutedAnswers(agent, request, position, approved, text);
      if outcome.OutOfTime? {
        failure := Some(DeadlineExceeded);
        return;
      }
      if agent.registry && effect != ReadOnly {
        var ok := RecordOperation(request, text);
        if !ok {
          failure := Some(RetrySuppressed);
        }
      }
    }

    // -------------------------------------------------------------------
    // The stores
    // -------------------------------------------------------------------

    method SaveCheckpoint(me: Who, w: Work) returns (failure: Option<Failure>)
      requires Valid() && Runs(me) && Working(agent, Mine(me), w) && w.iterations < agent.maxIterations && agent.checkpointing
      modifies this
      ensures Valid() && Runs(me) && Working(agent, Mine(me), w) && Quiet(old(log), log, me)
      ensures failure.None? ==>
                && w.cid in checkpoints
                && checkpoints[w.cid] == Checkpoint(agent.id, w.session, w.input, w.messages, w.results, w.iterations, w.tail)
      ensures failure.None? ==> |log| > |old(log)| && log[|log| - 1] == By(me, Saved(checkpoints[w.cid]))
      ensures failure.Some? ==> Dependency(failure.value)
      ensures faults >= old(faults) && (failure.Some? <==> faults > old(faults))
    {
      WorkingMaySave(agent, Mine(me), w);
      SnapshotIs(agent, w);
      hide *;
      Interfere(me);
      ghost var before := log;
      var landed;
      landed, failure := Await();
      if landed {
        PutCheckpoint(me, Snapshot(agent, w));
      }
      BookkeepingOnly(old(log), before, log, me);
    }

    method PutCheckpoint(me: Who, checkpoint: Checkpoint)
      requires Valid() && Runs(me) && MayAct(agent, Mine(me), Saved(checkpoint))
      modifies this`checkpoints, this`log, this`books
      ensures Valid() && log == old(log) + [By(me, Saved(checkpoint))]
      ensures Runs(me) && Mine(me) == old(Mine(me)).(exposed := true)
      ensures checkpoints == old(checkpoints)[old(Mine(me)).cid := checkpoint]
    {
      hide Replay, Accepted, Kept, MayAct, ChainsAfter, GrantsAfter, StartsAfter;
      var a := books.attempts[me];
      ContentsPut(books.checkpoints, a.cid, Owned(checkpoint, a.chain, a.view));
      Note(By(me, Saved(checkpoint)));
      checkpoints := checkpoints[a.cid := checkpoint];
    }

    method DeleteCheckpoint(me: Who) returns (failure: Option<Failure>)
      requires Valid() && Runs(me)
      modifies this`log, this`books, this`checkpoints, this`approvals, this`sessions, this`faults
      ensures Valid() && Runs(me) && Quiet(old(log), log, me)
      ensures failure.None? ==> Mine(me).cid !in checkpoints && |log| > |old(log)| && log[|log| - 1] == By(me, Deleted)
      ensures Mine(me) == old(Mine(me)).(exposed := Mine(me).exposed)
      ensures failure.None? ==> !Mine(me).exposed
      ensures !old(Mine(me)).exposed ==> !Mine(me).exposed
      ensures failure.Some? ==> Dependency(failure.value)
      ensures faults >= old(faults) && (failure.Some? <==> faults > old(faults))
    {
      hide *;
      Interfere(me);
      ghost var before := log;
      var landed;
      landed, failure := Await();
      if landed {
        DropCheckpoint(me);
      }
      BookkeepingOnly(old(log), before, log, me);
    }

    method DropCheckpoint(me: Who)
      requires Valid() && Runs(me)
      modifies this`checkpoints, this`log, this`books
      ensures Valid() && log == old(log) + [By(me, Deleted)]
      ensures Runs(me) && Mine(me) == old(Mine(me)).(exposed := false)
      ensures checkpoints == old(checkpoints) - {old(Mine(me)).cid}
    {
      hide Replay, Accepted, Kept, ChainsAfter, GrantsAfter, StartsAfter;
      var cid := books.attempts[me].cid;
      ContentsDrop(books.checkpoints, cid);
      Note(By(me, Deleted));
      checkpoints := checkpoints - {cid};
    }

    // Saving the pending approval and dropping the invocation's checkpoint is
    // one step, which ends the attempt.
    method StoreApproval(me: Who, w: Work, calls: seq<ToolRequest>, continuation: Id) returns (failure: Option<Failure>)
      requires Valid() && Runs(me) && Asked(agent, Mine(me), w, calls) && w.iterations < agent.maxIterations
      modifies this
      ensures Valid() && Quiet(old(log), log, me)
      ensures failure.None? ==>
                && |log| > |old(log)| && log[|log| - 1] == By(me, Paused(continuation, PauseOf(agent, w, calls))) && !Runs(me)
                && continuation in approvals
                && approvals[continuation] == Approval(agent.id, calls, w.messages, w.results, w.iterations, w.session, w.input)
                && w.cid !in checkpoints
      ensures failure.Some? ==> Dependency(failure.value)
      ensures faults >= old(faults) && (failure.Some? <==> faults > old(faults))
    {
      AskedMayPause(agent, Mine(me), w, calls, continuation);
      PauseIs(agent, w, calls);
      hide *;
      Interfere(me);
      ghost var before := log;
      var landed;
      landed, failure := Await();
      if landed {
        PutApproval(me, continuation, PauseOf(agent, w, calls));
      }
      BookkeepingOnly(old(log), before, log, me);
    }

    method PutApproval(me: Who, continuation: Id, approval: Approval)
      requires Valid() && Runs(me) && MayAct(agent, Mine(me), Paused(continuation, approval))
      modifies this`approvals, this`checkpoints, this`log, this`books
      ensures Valid() && log == old(log) + [By(me, Paused(continuation, approval))] && !Runs(me)
      ensures approvals == old(approvals)[continuation := approval]
      ensures checkpoints == old(checkpoints) - {old(Mine(me)).cid}
    {
      hide Replay, Accepted, Kept, MayAct, ChainsAfter, GrantsAfter, StartsAfter;
      var a := books.attempts[me];
      ContentsPut(books.approvals, continuation, Owned(approval, a.chain, a.view));
      ContentsDrop(books.checkpoints, a.cid);
      Note(By(me, Paused(continuation, approval)));
      approvals := approvals[continuation := approval];
      checkpoints := checkpoints - {a.cid};
    }

    // Load the session, creating it when it is missing. What is loaded is in
    // the store when the call returns.
    method LoadSession(me: Who, session: Option<Id>) returns (failure: Option<Failure>, loaded: Session)
      requires Valid()
      modifies this
      ensures Valid() && old(log) <= log && NoneOwn(log, |old(log)|, me) && SameAttempt(old(books), books, me)
      ensures NoSystem(loaded.messages)
      ensures failure.None? ==> Holds(agent, sessions, session, loaded.version, loaded.messages)
      ensures failure != Some(RetrySuppressed) && (Runs(me) <==> old(Runs(me)))
      ensures failure.Some? ==> Dependency(failure.value)
      ensures faults >= old(faults) && (failure.Some? <==> faults > old(faults))
    {
      hide Replay, Accepted, Kept, Apply, Allowed, SessionsAfter;
      var landed: bool;
      loaded := Session(0, []);
      Interfere(me);
      landed, failure := Await();
      if failure.Some? || !agent.sessions || session.None? {
        return;
      }
      if session.value in sessions {
        loaded := sessions[session.value];
        return;
      }
      Interfere(me);
      landed, failure := Await();
      if landed {
        loaded := Session(1, []);
        CreateSession(me, session.value);
      }
    }

    method CreateSession(me: Who, id: Id)
      requires Valid()
      modifies this`log, this`books, this`checkpoints, this`approvals, this`sessions
      ensures Valid() && log == old(log) + [SessionWritten(id, Some(Session(1, [])))]
      ensures sessions == old(sessions)[id := Session(1, [])] && SameAttempt(old(books), books, me)
    {
      hide Replay, Accepted, Kept, Apply, SessionsAfter;
      SessionsStep(log, SessionWritten(id, Some(Session(1, []))));
      OthersLeaveAttempt(agent, books, SessionWritten(id, Some(Session(1, []))), me);
      Other(SessionWritten(id, Some(Session(1, []))));
    }

    // Append the turn to the loaded session and write it back under the guard
    // of the version it was loaded with. A session changed meanwhile is a
    // retryable conflict.
    method UpdateSession(me: Who, w: Work) returns (failure: Option<Failure>)
      requires Valid() && Runs(me) && w.session.Some? && NoSystem(StoredTurn(w))
      modifies this
      ensures Valid() && Runs(me) && Mine(me) == old(Mine(me)) && Closing(old(log), log, me)
      ensures failure.None? ==> |log| > |old(log)| && TurnStored(log, |log| - 1, me, w)
      ensures failure.None? ==> w.session.value in sessions && sessions[w.session.value] == Session(w.version + 1, StoredTurn(w))
      ensures failure.Some? ==> Dependency(failure.value)
      ensures faults >= old(faults) && (failure.None? ==> faults == old(faults))
      ensures failure.Some? && faults == old(faults) ==>
                && failure == Some(Raised(true))
                && (w.session.value in sessions ==> sessions[w.session.value].version != w.version)
    {
      hide Valid, Closing, NoneOwn, StoredTurn, SameAttempt, Runs, Mine;
      Interfere(me);
      ghost var before := log;
      failure := None;
      if w.session.value in sessions && sessions[w.session.value].version == w.version {
        var landed;
        landed, failure := Await();
        if landed {
          StoreTurn(me, w);
        }
      } else {
        failure := Some(Raised(true));
      }
      StoringOnly(old(log), before, log, me);
    }

    method StoreTurn(me: Who, w: Work)
      requires Valid() && Runs(me) && w.session.Some? && NoSystem(StoredTurn(w))
      requires w.session.value in sessions && sessions[w.session.value].version == w.version
      modifies this`sessions, this`log, this`books
      ensures Valid() && Runs(me) && Mine(me) == old(Mine(me))
      ensures log == old(log) + [By(me, SessionStored(w.session.value, Session(w.version + 1, StoredTurn(w))))]
      ensures sessions == old(sessions)[w.session.value := Session(w.version + 1, StoredTurn(w))]
      ensures TurnStored(log, |log| - 1, me, w)
    {
      hide StoredTurn, Replay, Accepted, Kept, SessionsAfter, ChainsAfter, GrantsAfter, StartsAfter;
      var e := By(me, SessionStored(w.session.value, Session(w.version + 1, StoredTurn(w))));
      SessionsStep(log, e);
      ghost var before := log;
      Note(e);
      assert log[..|log| - 1] == before;
      sessions := sessions[w.session.value := Session(w.version + 1, StoredTurn(w))];
    }

    // -------------------------------------------------------------------
    // Where an invocation starts from
    // -------------------------------------------------------------------

    // The request's own reasons to be refused, which are no failures of others.
    ghost predicate Refused(request: Request, failure: Failure) {
      match request
      case Fresh(_, _, _) => false
      case Resume(_, _, input) => failure == CheckpointNotFound || (failure == InvalidRequest && input != "")
      case Continue(_, _, _, _) => failure == ContinuationNotFound
    }

    // The get is one step; a missing or foreign checkpoint, or input beside it,
    // is refused.
    method RestoreCheckpoint(me: Who, request: Request) returns (failure: Option<Failure>, w: Work)
      requires Valid() && !Runs(me) && request.Resume?
      modifies this`log, this`books, this`faults
      ensures Valid()
      ensures faults >= old(faults) && (failure.None? ==> faults == old(faults))
      ensures failure.Some? && faults == old(faults) ==> Refused(request, failure.value)
      ensures failure == Some(CheckpointNotFound) ==>
                !agent.checkpointing || request.checkpointId !in checkpoints || checkpoints[request.checkpointId].agentId != agent.id
      ensures failure == Some(InvalidRequest) ==> request.input != ""
      ensures failure.Some? ==>
                && (failure.value in {CheckpointNotFound, InvalidRequest} || Dependency(failure.value))
                && log == old(log) && !Runs(me)
      ensures failure.None? ==>
                && request.input == "" && request.checkpointId in checkpoints
                && (var c := checkpoints[request.checkpointId];
                    && c.agentId == agent.id
                    && log == old(log) + [Begun(me, request.checkpointId, FromCheckpoint(request.checkpointId, c))]
                    && w == Work(request.checkpointId, c.sessionId, 0, [], c.input, c.messages, c.results, c.iterations, c.historyTail, []))
                && w.iterations < agent.maxIterations
                && Runs(me) && Working(agent, Mine(me), w) && !Mine(me).continued
    {
      hide Valid, Working;
      w := Work(request.checkpointId, None, 0, [], "", [], [], 0, 0, []);
      if !agent.checkpointing {
        return Some(CheckpointNotFound), w;
      }
      var _, error := Await();
      if error.Some? {
        return error, w;
      }
      if request.checkpointId !in checkpoints || checkpoints[request.checkpointId].agentId != agent.id {
        return Some(CheckpointNotFound), w;
      }
      if request.input != "" {
        return Some(InvalidRequest), w;
      }
      failure := None;
      w := TakeCheckpoint(me, request.checkpointId);
    }

    // The attempt begins with what the stored record holds.
    method TakeCheckpoint(me: Who, id: Id) returns (w: Work)
      requires Valid() && !Runs(me) && id in checkpoints && checkpoints[id].agentId == agent.id
      modifies this`log, this`books
      ensures Valid() && log == old(log) + [Begun(me, id, FromCheckpoint(id, checkpoints[id]))]
      ensures w == var c := checkpoints[id];
                   Work(id, c.sessionId, 0, [], c.input, c.messages, c.results, c.iterations, c.historyTail, [])
      ensures w.iterations < agent.maxIterations && Runs(me) && Working(agent, Mine(me), w) && !Mine(me).continued
    {
      hide Replay, Accepted, Kept, Apply, Allowed, Working;
      var c := checkpoints[id];
      w := Work(id, c.sessionId, 0, [], c.input, c.messages, c.results, c.iterations, c.historyTail, []);
      RecordIsResumed(agent, books, me, id, w);
      Note(Begun(me, id, FromCheckpoint(id, c)));
    }

    // Getting and deleting the pending approval is one step, which may take
    // place although the store reports an error. An unknown, expired or foreign
    // approval is refused, and a foreign one stays.
    method ConsumeApproval(me: Who, request: Request) returns (failure: Option<Failure>, w: Work)
      requires Valid() && !Runs(me) && request.Continue?
      modifies this`approvals, this`log, this`books, this`faults
      ensures Valid() && old(log) <= log
      ensures faults >= old(faults) && (failure.None? ==> faults == old(faults))
      ensures failure.Some? && faults == old(faults) ==> Refused(request, failure.value)
      ensures failure.Some? ==>
                && (failure.value.ContinuationNotFound? || Dependency(failure.value)) && !Runs(me) && NoneOwn(log, |old(log)|, me)
                && (approvals == old(approvals) || approvals == old(approvals) - {request.continuationId})
      ensures failure == Some(ContinuationNotFound) ==>
                && (request.continuationId in old(approvals) && old(approvals)[request.continuationId].agentId == agent.id ==>
                      log == old(log) + [ApprovalExpired(request.continuationId)])
                && (request.continuationId in old(approvals) && old(approvals)[request.continuationId].agentId != agent.id ==>
                      approvals == old(approvals) || log == old(log) + [ApprovalExpired(request.continuationId)])
      ensures failure.None? ==>
                && request.continuationId in old(approvals)
                && approvals == old(approvals) - {request.continuationId}
                && (var a := old(approvals)[request.continuationId];
                    && a.agentId == agent.id
                    && log == old(log) + [Begun(me, request.requestId, FromApproval(request.continuationId, a, request.decision))]
                    && w == Work(request.requestId, if request.sessionId.Some? then request.sessionId else a.sessionId,
                                 0, [], a.input, a.messages, a.results, a.iterations, 0, a.requests))
                && w.iterations < agent.maxIterations
                && Runs(me) && Restored(agent, Mine(me), w, request.decision)
    {
      hide Replay, Accepted, Dangling, Valid, Restored, Kept;
      w := Work(request.requestId, None, 0, [], "", [], [], 0, 0, []);
      var expired: bool := *;
      var removed, error := Await();
      if error.Some? {
        if removed {
          DropApproval(me, request.continuationId);
        }
        return error, w;
      }
      if request.continuationId !in approvals {
        return Some(ContinuationNotFound), w;
      }
      if expired {
        DropApproval(me, request.continuationId);
        return Some(ContinuationNotFound), w;
      }
      var a := approvals[request.continuationId];
      if a.agentId != agent.id {
        return Some(ContinuationNotFound), w;
      }
      failure, w := None, Work(request.requestId, if request.sessionId.Some? then request.sessionId else a.sessionId,
                               0, [], a.input, a.messages, a.results, a.iterations, 0, a.requests);
      TakeApproval(me, request.continuationId, request.decision, w);
    }

    method DropApproval(me: Who, id: Id)
      requires Valid()
      modifies this`approvals, this`log, this`books
      ensures Valid() && log == old(log) + [ApprovalExpired(id)] && approvals == old(approvals) - {id}
      ensures SameAttempt(old(books), books, me)
    {
      hide Replay, Accepted, Kept;
      ContentsDrop(books.approvals, id);
      Note(ApprovalExpired(id));
      approvals := approvals - {id};
    }

    // The attempt begins with what the pending approval holds.
    method TakeApproval(me: Who, id: Id, decision: Decision, w: Work)
      requires Valid() && !Runs(me) && id in approvals && approvals[id].agentId == agent.id
      requires var a := approvals[id];
               && w.messages == a.messages && w.results == a.results && w.iterations == a.iterations
               && w.tail == 0 && w.wave == a.requests && w.history == []
      modifies this`approvals, this`log, this`books
      ensures Valid() && approvals == old(approvals) - {id}
      ensures log == old(log) + [Begun(me, w.cid, FromApproval(id, old(approvals)[id], decision))]
      ensures w.iterations < agent.maxIterations && Runs(me) && Restored(agent, Mine(me), w, decision)
    {
      hide Replay, Accepted, Restored, Kept, Apply, Allowed;
      ContentsDrop(books.approvals, id);
      ConsumedIsRestored(agent, books, me, id, decision, w);
      Note(Begun(me, w.cid, FromApproval(id, approvals[id], decision)));
      approvals := approvals - {id};
    }

    // A fresh transcript: the system prompt, the tail of the session's history,
    // and the caller's input.
    method StartFresh(me: Who, request: Request, loaded: Session, prompt: string) returns (w: Work)
      requires Valid() && !Runs(me) && request.Fresh? && NoSystem(loaded.messages)
      modifies this`log, this`books
      ensures Valid() && log == old(log) + [Begun(me, request.requestId, FromRequest(loaded.messages))]
      ensures w == Work(request.requestId, request.sessionId, loaded.version, loaded.messages, request.input,
                        FreshTranscript(prompt, loaded.messages, request.input), [], 0, |HistoryTail(loaded.messages)|, [])
      ensures Runs(me) && Working(agent, Mine(me), w)
    {
      hide Replay, Accepted, Shaped, FreshTranscript, Kept;
      var history := loaded.messages;
      w := Work(request.requestId, request.sessionId, loaded.version, history, request.input,
                FreshTranscript(prompt, history, request.input), [], 0, |HistoryTail(history)|, []);
      FreshShaped(prompt, history, request.input);
      Note(Begun(me, request.requestId, FromRequest(history)));
    }

    // -------------------------------------------------------------------
    // The replayed wave of a continuation
    // -------------------------------------------------------------------

    method ReplayWave(me: Who, w0: Work, decision: Decision, attempted0: seq<string>)
      returns (failure: Option<Failure>, w: Work, attempted: seq<string>)
      requires Valid() && Runs(me) && Restored(agent, Mine(me), w0, decision)
      modifies this
      ensures Valid() && Runs(me) && old(log) <= log && GoesOn(log, |old(log)|, me) && attempted0 <= attempted
      ensures attempted == [] ==> NoEffects(agent, log, |old(log)|, me)
      ensures attempted0 == [] && attempted != [] ==> !NoEffects(agent, log, |old(log)|, me)
      ensures failure == Some(RetrySuppressed) ==> attempted != []
      ensures failure.None? ==>
                && Working(agent, Mine(me), w) && Continues(w0, w)
                && w.iterations == w0.iterations && WaveReported(w0, w, w0.wave, false)
                && DecidedAs(w0.wave, decision, w.results[|w0.results|..])
      ensures old(outputs) <= outputs && old(told) <= told
      ensures failure.None? && decision.Approve? ==>
                SaysWhatHappened(agent, w0.wave, true, w.results[|w0.results|..], outputs[|old(outputs)|..], told[|old(told)|..])
      ensures faults >= old(faults) && (failure.Some? <==> faults > old(faults))
    {
      hide Valid, Restored, Agrees, Working, Continues, GoesOn, NoEffects, DecidedAs, WaveReported, Ran, SaysWhatHappened;
      w := w0.(wave := []);
      var results: seq<ToolResult>;
      ghost var start, paused := log, Mine(me);
      failure, results, attempted := AnswerWave(me, w0, decision, attempted0);
      if failure.Some? {
        return;
      }
      ghost var executed, ran := log, Mine(me);
      Act(me, ReplayEnded);
      ReplayEndsQuietly(executed, log, me);
      QuietHasNoEffects(agent, executed, log, |start|, me);
      GoesOnJoined(executed, log, |start|, me);
      w := w0.(messages := w0.messages + ReplayedMessages(results), results := w0.results + results, wave := []);
      WaveReplayed(paused, ran, Mine(me), w0, w, decision, results);
      assert w.results[|w0.results|..] == results;
    }

    // A denied wave is answered by denials, an approved one by its execution.
    ghost predicate DecidedAs(wave: seq<ToolRequest>, decision: Decision, results: seq<ToolResult>) {
      && |results| == |wave|
      && forall i :: 0 <= i < |wave| ==>
           if decision.Approve? then Answered(agent, wave[i], true, results[i])
           else results[i] == DeniedByCaller(wave[i].name, "denied by caller: approval denied")
    }

    method AnswerWave(me: Who, w: Work, decision: Decision, attempted0: seq<string>)
      returns (failure: Option<Failure>, results: seq<ToolResult>, attempted: seq<string>)
      requires Valid() && Runs(me) && Restored(agent, Mine(me), w, decision)
      modifies this
      ensures Valid() && Runs(me) && old(log) <= log && GoesOn(log, |old(log)|, me) && attempted0 <= attempted
      ensures attempted == [] ==> NoEffects(agent, log, |old(log)|, me)
      ensures attempted0 == [] && attempted != [] ==> !NoEffects(agent, log, |old(log)|, me)
      ensures failure == Some(RetrySuppressed) ==> attempted != []
      ensures failure.None? ==> Ran(old(Mine(me)), Mine(me), EffectCalls(results)) && DecidedAs(w.wave, decision, results)
      ensures old(outputs) <= outputs && old(told) <= told
      ensures failure.None? && decision.Approve? ==>
                SaysWhatHappened(agent, w.wave, true, results, outputs[|old(outputs)|..], told[|old(told)|..])
      ensures faults >= old(faults) && (failure.Some? <==> faults > old(faults))
    {
      hide Valid, Dangling, Shaped, Fits, GoesOn, NoEffects, Answered, SaysWhatHappened;
      NothingYet(agent, log, me);
      failure, attempted := None, attempted0;
      if decision.Approve? {
        ghost var begun;
        failure, results, attempted, begun := ExecuteTools(me, w.wave, true, attempted0);
      } else {
        results := CallerDenials(w.wave);
        RanNothing(Mine(me));
      }
    }

    lemma WaveReplayed(paused: Attempt, ran: Attempt, a: Attempt, w0: Work, w: Work, decision: Decision, results: seq<ToolResult>)
      requires Restored(agent, paused, w0, decision) && Ran(paused, ran, EffectCalls(results)) && a == Moved(agent, ran, ReplayEnded)
      requires DecidedAs(w0.wave, decision, results)
      requires w == w0.(messages := w0.messages + ReplayedMessages(results), results := w0.results + results, wave := [])
      ensures Working(agent, a, w) && Continues(w0, w) && WaveReported(w0, w, w0.wave, false)
    {
      var answers := ReplayedMessages(results);
      hide Dangling, Shaped, Fits, Answers, WaveReported, Working, Continues, Agrees;
      AnswersReport(w0, w, w0.wave, results, answers, false, paused.view.replayed);
      WaveAnswered(agent, paused, a, w0, w, w0.wave, results, answers);
    }

    // -------------------------------------------------------------------
    // The model/tool loop
    // -------------------------------------------------------------------

    ghost predicate SameButIds(requests: seq<ToolRequest>, wave: seq<ToolRequest>) {
      && |wave| == |requests|
      && (forall i :: 0 <= i < |requests| ==> wave[i] == requests[i].(id := wave[i].id))
      && (forall i :: 0 <= i < |requests| && requests[i].id != "" ==> wave[i] == requests[i])
    }

    // Requests that arrive without a call id get one; nothing else changes.
    method AssignIds(requests: seq<ToolRequest>) returns (wave: seq<ToolRequest>)
      ensures SameButIds(requests, wave)
    {
      wave := [];
      for i := 0 to |requests|
        invariant |wave| == i
        invariant forall k :: 0 <= k < i ==> wave[k] == requests[k].(id := wave[k].id)
        invariant forall k :: 0 <= k < i && requests[k].id != "" ==> wave[k] == requests[k]
      {
        var id := requests[i].id;
        if id == "" {
          id := *;
        }
        wave := wave + [requests[i].(id := id)];
      }
    }

    method AnyReply() returns (reply: ModelReply)
      modifies this`replies
      ensures replies == old(replies) + [reply]
    {
      reply := *;
      replies := replies + [reply];
    }

    // The last thing the attempt did is to save its whole state, if it saves any.
    ghost predicate Recorded(me: Who, w: Work)
      reads this`log
    {
      agent.checkpointing ==>
        OwnLast(log, By(me, Saved(Checkpoint(agent.id, w.session, w.input, w.messages, w.results, w.iterations, w.tail))))
    }

    // One model call, made with the state recorded, and exactly its reply appended
    // to the transcript.
    method CallModel(me: Who, w0: Work) returns (failure: Option<Failure>, w: Work, wave: seq<ToolRequest>)
      requires Valid() && Runs(me) && Working(agent, Mine(me), w0) && w0.iterations < agent.maxIterations
      requires Recorded(me, w0)
      modifies this
      ensures failure.Some? ==> Dependency(failure.value)
      ensures Valid() && Runs(me) && Quiet(old(log), log, me)
      ensures failure.None? ==>
                && w == w0.(messages := w.messages, iterations := w0.iterations + 1)
                && |replies| == |old(replies)| + 1 && old(replies) <= replies
                && w.messages == w0.messages + [Assistant(replies[|old(replies)|].text, wave)]
                && SameButIds(replies[|old(replies)|].requests, wave)
                && Replied(agent, Mine(me), w, wave)
      ensures faults >= old(faults) && (failure.Some? <==> faults > old(faults))
    {
      hide Valid, Shaped, Dangling, Quiet, NoneOwn;
      w, wave, failure := w0, [], None;
      Interfere(me);
      ghost var before := log;
      Act(me, ModelCalled);
      BookkeepingOnly(old(log), before, log, me);
      var _, error := Await();
      var reply := AnyReply();
      if error.Some? {
        return error, w, wave;
      }
      wave := AssignIds(reply.requests);
      ReplyAppended(w0.messages, reply.text, wave, Mine(me).view.tail, Mine(me).view.replayed);
      w := w0.(messages := w0.messages + [Assistant(reply.text, wave)], iterations := w0.iterations + 1);
    }

    // Run one wave of the conversation and append its results.
    method RunWave(me: Who, w0: Work, wave: seq<ToolRequest>, attempted0: seq<string>)
      returns (failure: Option<Failure>, w: Work, attempted: seq<string>)
      requires Valid() && Runs(me) && Asked(agent, Mine(me), w0, wave) && w0.iterations < agent.maxIterations
      modifies this
      ensures Valid() && Runs(me) && old(log) <= log && GoesOn(log, |old(log)|, me) && attempted0 <= attempted
      ensures attempted == [] ==> NoEffects(agent, log, |old(log)|, me)
      ensures attempted0 == [] && attempted != [] ==> !NoEffects(agent, log, |old(log)|, me)
      ensures failure == Some(RetrySuppressed) ==> attempted != []
      ensures failure.None? ==>
                && Working(agent, Mine(me), w) && Continues(w0, w)
                && w.iterations == w0.iterations && WaveReported(w0, w, wave, true)
                && ResultsFor(agent, wave, false, w.results[|w0.results|..])
      ensures old(outputs) <= outputs && old(told) <= told
      ensures failure.None? ==>
                SaysWhatHappened(agent, wave, false, w.results[|w0.results|..], outputs[|old(outputs)|..], told[|old(told)|..])
      ensures faults >= old(faults) && (failure.Some? <==> faults > old(faults))
    {
      hide Valid, Dangling, Shaped, Fits, WaveIsReplaySafe, Working, Continues, SaysWhatHappened;
      failure, attempted, w := None, attempted0, w0;
      if agent.checkpointing && !WaveIsReplaySafe(agent, wave) {
        failure := DeleteCheckpoint(me);
        if failure.Some? {
          return;
        }
      }
      var results: seq<ToolResult>;
      ghost var begun;
      ghost var asked := Mine(me);
      failure, results, attempted, begun := ExecuteTools(me, wave, false, attempted0);
      if failure.Some? {
        return;
      }
      w := w0.(messages := w0.messages + ToolMessages(results), results := w0.results + results);
      WaveRun(asked, Mine(me), w0, w, wave, results);
    }

    lemma WaveRun(asked: Attempt, a: Attempt, w0: Work, w: Work, wave: seq<ToolRequest>, results: seq<ToolResult>)
      requires Asked(agent, asked, w0, wave) && Ran(asked, a, EffectCalls(results)) && ResultsFor(agent, wave, false, results)
      requires w == w0.(messages := w0.messages + ToolMessages(results), results := w0.results + results)
      ensures Working(agent, a, w) && Continues(w0, w) && WaveReported(w0, w, wave, true)
      ensures ResultsFor(agent, wave, false, w.results[|w0.results|..])
    {
      var answers := ToolMessages(results);
      hide Dangling, Shaped, Fits, Answers, WaveReported, Working, Continues, Agrees;
      AnswersReport(w0, w, wave, results, answers, true, asked.view.replayed);
      WaveAnswered(agent, asked, a, w0, w, wave, results, answers);
    }

    method RunLoop(me: Who, w0: Work, continuation: Option<Id>, attempted0: seq<string>)
      returns (outcome: Outcome, w: Work, attempted: seq<string>)
      requires Valid() && Runs(me) && Working(agent, Mine(me), w0) && w0.iterations < agent.maxIterations
      requires Recorded(me, w0)
      modifies this
      ensures Valid() && old(log) <= log && attempted0 <= attempted
      ensures GoesOn(log, |old(log)|, me)
      ensures attempted == [] ==> NoEffects(agent, log, |old(log)|, me)
      ensures attempted0 == [] && attempted != [] ==> !NoEffects(agent, log, |old(log)|, me)
      ensures outcome == Failed(RetrySuppressed) ==> attempted != []
      ensures outcome.Completed? ==>
                Runs(me) && Finished(agent, Mine(me), w) && Continues(w0, w) && Reports(outcome, w)
      ensures faults >= old(faults) && (outcome.Failed? <==> faults > old(faults))
      ensures outcome.AwaitingApproval? ==>
                && (continuation.Some? ==> outcome.continuation == continuation.value)
                && Continues(w0, w) && PausedOn(outcome.continuation, me, w) && !Runs(me)
    {
      NothingYet(agent, log, me);
      ContinuesItself(w0);
      hide *;
      w, attempted := w0, attempted0;
      while true
        invariant Valid() && Runs(me) && Working(agent, Mine(me), w) && w.iterations < agent.maxIterations
        invariant Continues(w0, w) && Recorded(me, w)
        invariant old(log) <= log && attempted0 <= attempted && GoesOn(log, |old(log)|, me)
        invariant attempted == [] ==> NoEffects(agent, log, |old(log)|, me)
        invariant attempted0 == [] && attempted != [] ==> !NoEffects(agent, log, |old(log)|, me)
        invariant faults == old(faults)
        decreases agent.maxIterations - w.iterations
      {
        ghost var before := log;
        var ended: Option<Outcome>;
        ghost var w1 := w;
        ended, w, attempted := Iterate(me, w, continuation, attempted);
        if ended.None? || !ended.value.Failed? {
          ContinuesOn(w0, w1, w);
        }
        NoEffectsJoined(agent, before, log, |old(log)|, me);
        GoesOnJoined(before, log, |old(log)|, me);
        if ended.Some? {
          return ended.value, w, attempted;
        }
      }
    }

    // One round of the loop: a model call, and then an end or a wave.
    method Iterate(me: Who, w0: Work, continuation: Option<Id>, attempted0: seq<string>)
      returns (ended: Option<Outcome>, w: Work, attempted: seq<string>)
      requires Valid() && Runs(me) && Working(agent, Mine(me), w0) && w0.iterations < agent.maxIterations
      requires Recorded(me, w0)
      modifies this
      ensures Valid() && old(log) <= log && attempted0 <= attempted
      ensures GoesOn(log, |old(log)|, me)
      ensures attempted == [] ==> NoEffects(agent, log, |old(log)|, me)
      ensures attempted0 == [] && attempted != [] ==> !NoEffects(agent, log, |old(log)|, me)
      ensures ended == Some(Failed(RetrySuppressed)) ==> attempted != []
      ensures ended.None? ==>
                && Runs(me) && Working(agent, Mine(me), w) && Continues(w0, w)
                && w0.iterations < w.iterations < agent.maxIterations
                && Recorded(me, w) && RoundDone(w0, w)
      ensures ended.Some? && ended.value.Completed? ==>
                Runs(me) && Finished(agent, Mine(me), w) && Continues(w0, w) && Reports(ended.value, w)
      ensures faults >= old(faults) && (ended.Some? && ended.value.Failed? <==> faults > old(faults))
      ensures ended.Some? && ended.value.AwaitingApproval? ==>
                && (continuation.Some? ==> ended.value.continuation == continuation.value)
                && Continues(w0, w) && PausedOn(ended.value.continuation, me, w) && !Runs(me)
    {
      hide Valid, Dangling, Shaped, ApprovalNeeded, WaveIsReplaySafe, Quiet, NoEffects, GoesOn, Agrees, PauseOf, SaysWhatHappened, ResultsFor;
      ended, attempted := None, attempted0;
      var failure: Option<Failure>;
      var wave: seq<ToolRequest>;
      failure, w, wave := CallModel(me, w0);
      QuietAlone(agent, old(log), log, me);
      if failure.Some? {
        return Some(Failed(failure.value)), w, attempted;
      }
      if wave == [] || w.iterations >= agent.maxIterations {
        return Some(Completed(w.messages[|w.messages| - 1].text, w.iterations)), w, attempted;
      }
      ghost var before := log;
      if ApprovalNeeded(agent, wave) {
        var id: Id := *;
        if continuation.Some? {
          id := continuation.value;
        }
        failure := StoreApproval(me, w, wave, id);
        QuietHasNoEffects(agent, before, log, |old(log)|, me);
        GoesOnJoined(before, log, |old(log)|, me);
        return Some(if failure.None? then AwaitingApproval(id) else Failed(failure.value)), w, attempted;
      }
      failure, w, attempted := RunWave(me, w, wave, attempted);
      NoEffectsJoined(agent, before, log, |old(log)|, me);
      GoesOnJoined(before, log, |old(log)|, me);
      if failure.Some? {
        return Some(Failed(failure.value)), w, attempted;
      }
      before := log;
      if agent.checkpointing {
        failure := SaveCheckpoint(me, w);
        QuietHasNoEffects(agent, before, log, |old(log)|, me);
        GoesOnJoined(before, log, |old(log)|, me);
        if failure.Some? {
          return Some(Failed(failure.value)), w, attempted;
        }
      }
    }

    // The answer is that of the last message.
    ghost predicate Reports(outcome: Outcome, w: Work) {
      && outcome.Completed? && outcome.iterations == w.iterations <= agent.maxIterations
      && w.messages != [] && w.messages[|w.messages| - 1].Assistant? && outcome.text == w.messages[|w.messages| - 1].text
    }

    // A round that goes on: a reply with calls none of which asks for approval, and
    // one result and one tool message for each.
    ghost predicate RoundDone(w0: Work, w: Work) {
      && w.iterations == w0.iterations + 1 && |w.messages| > |w0.messages|
      && (var reply := w.messages[|w0.messages|];
          && reply.Assistant? && reply.calls != [] && !ApprovalNeeded(agent, reply.calls)
          && |w.messages| == |w0.messages| + 1 + |reply.calls| && |w.results| == |w0.results| + |reply.calls|)
    }

    // The pause that ended the attempt, as it is stored now.
    ghost predicate PausedOn(continuation: Id, me: Who, w: Work)
      reads this`checkpoints, this`approvals, this`books, this`log
    {
      && w.messages != [] && w.messages[|w.messages| - 1].Assistant?
      && (var calls := w.messages[|w.messages| - 1].calls;
          && ApprovalNeeded(agent, calls)
          && log != [] && log[|log| - 1] == By(me, Paused(continuation, PauseOf(agent, w, calls)))
          && continuation in approvals
          && approvals[continuation] == Approval(agent.id, calls, w.messages, w.results, w.iterations, w.session, w.input))
      && !Runs(me) && w.cid !in checkpoints
    }

    // -------------------------------------------------------------------
    // One attempt
    // -------------------------------------------------------------------

    // The loop may start: on a complete transcript with an iteration left, from
    // where the request asks for, and with its session as it was read.
    ghost predicate Ready(from: nat, me: Who, request: Request, prompt: string, w: Work, begin: nat, read: nat)
      requires Runs(me)
      reads this`log, this`books
    {
      && Working(agent, Mine(me), w) && w.iterations < agent.maxIterations
      && from <= begin <= read && BeganAt(agent, log, begin, me, request, prompt, w)
      && SessionReadAt(agent, log, read, me, w)
    }

    lemma NowReady(from: nat, me: Who, request: Request, prompt: string, w: Work, begin: nat, read: nat)
      requires Runs(me) && Working(agent, Mine(me), w) && w.iterations < agent.maxIterations
      requires from <= begin <= read && BeganAt(agent, log, begin, me, request, prompt, w) && SessionReadAt(agent, log, read, me, w)
      ensures Ready(from, me, request, prompt, w, begin, read)
    {
      hide Working, BeganAt, SessionReadAt;
    }

    // The state the loop starts from, with the session loaded and, for a
    // continuation, the paused wave replayed. Event `begin` began the attempt.
    method Prepare(me: Who, request: Request, prompt: string, attempted0: seq<string>)
      returns (failure: Option<Failure>, w: Work, attempted: seq<string>, ghost begin: nat, ghost read: nat)
      requires Valid() && !Runs(me)
      modifies this
      ensures Valid() && old(log) <= log && attempted0 <= attempted
      ensures attempted == [] ==> NoEffects(agent, log, |old(log)|, me)
      ensures attempted0 == [] && attempted != [] ==> !NoEffects(agent, log, |old(log)|, me)
      ensures failure == Some(RetrySuppressed) ==> attempted != []
      ensures Underway(log, |old(log)|, me, request)
      ensures failure.None? ==> Runs(me) && Ready(|old(log)|, me, request, prompt, w, begin, read)
      ensures faults >= old(faults) && (failure.None? ==> faults == old(faults))
      ensures failure.Some? && faults == old(faults) ==> Refused(request, failure.value)
    {
      hide *;
      NothingYet(agent, log, me);
      failure, attempted, begin, read := None, attempted0, 0, 0;
      w := Work(request.requestId, None, 0, [], "", [], [], 0, 0, []);
      match request {
        case Fresh(_, _, _) => failure, w, begin, read := PrepareFresh(me, request, prompt);
        case Resume(_, _, _) => failure, w, begin, read := PrepareResume(me, request, prompt);
        case Continue(_, _, _, _) => failure, w, attempted, begin, read := PrepareContinue(me, request, prompt, attempted0);
      }
    }

    method PrepareFresh(me: Who, request: Request, prompt: string) returns (failure: Option<Failure>, w: Work, ghost begin: nat, ghost read: nat)
      requires Valid() && !Runs(me) && request.Fresh?
      modifies this
      ensures failure != Some(RetrySuppressed)
      ensures Valid() && old(log) <= log && NoEffects(agent, log, |old(log)|, me)
      ensures Underway(log, |old(log)|, me, request)
      ensures failure.None? ==> Runs(me) && Ready(|old(log)|, me, request, prompt, w, begin, read)
      ensures faults >= old(faults) && (failure.None? ==> faults == old(faults))
      ensures failure.Some? && faults == old(faults) ==> Refused(request, failure.value)
    {
      hide *;
      SomeIterations();
      begin, read := 0, 0;
      w := Work(request.requestId, None, 0, [], "", [], [], 0, 0, []);
      ghost var start := log;
      var loaded: Session;
      failure, loaded := LoadSession(me, request.sessionId);
      OthersGoOn(log, |start|, me);
      if failure.Some? {
        NotYet(start, me, request);
        StillUnderway(start, log, |start|, me, request);
        OthersHaveNoEffects(agent, log, |start|, me);
        return;
      }
      begin, read := |log|, |log|;
      ghost var before := log;
      StoreIsKnown();
      ghost var calm := faults;
      w := StartFresh(me, request, loaded, prompt);
      assert faults == calm == old(faults);
      BeginsHere(before, log, |start|, request.requestId, FromRequest(loaded.messages), me, request);
      BeginningHasNoEffects(agent, start, before, log, me, Begun(me, request.requestId, FromRequest(loaded.messages)));
      FreshBegan(agent, before, log, me, request, prompt, loaded, w);
      NowReady(|start|, me, request, prompt, w, begin, read);
    }

    lemma SomeIterations()
      requires Valid()
      ensures agent.maxIterations >= 1
    {
    }

    method PrepareResume(me: Who, request: Request, prompt: string) returns (failure: Option<Failure>, w: Work, ghost begin: nat, ghost read: nat)
      requires Valid() && !Runs(me) && request.Resume?
      modifies this
      ensures failure != Some(RetrySuppressed)
      ensures Valid() && old(log) <= log && NoEffects(agent, log, |old(log)|, me)
      ensures Underway(log, |old(log)|, me, request)
      ensures failure.None? ==> Runs(me) && Ready(|old(log)|, me, request, prompt, w, begin, read)
      ensures faults >= old(faults) && (failure.None? ==> faults == old(faults))
      ensures failure.Some? && faults == old(faults) ==> Refused(request, failure.value)
    {
      hide Valid, Shaped, Underway, GoesOn;
      ghost var start := log;
      Interfere(me);
      OthersGoOn(log, |start|, me);
      NotYet(start, me, request);
      StillUnderway(start, log, |start|, me, request);
      begin, read := |log|, |log|;
      ghost var before := log;
      failure, w := RestoreCheckpoint(me, request);
      if failure.Some? {
        return;
      }
      ghost var begun := log;
      BeginsHere(before, log, |start|, request.checkpointId, log[begin].origin, me, request);
      var loaded: Session;
      failure, loaded := ReadSession(me, w.session);
      StillUnderway(begun, log, |start|, me, request);
      if failure.Some? {
        return;
      }
      assert log[begin] == begun[begin];
      read := |log| - 1;
      w := w.(version := loaded.version, history := loaded.messages);
      NowReady(|start|, me, request, prompt, w, begin, read);
    }

    // The session as it is now, read by an attempt that has begun.
    method ReadSession(me: Who, session: Option<Id>) returns (failure: Option<Failure>, loaded: Session)
      requires Valid() && Runs(me)
      modifies this
      ensures failure != Some(RetrySuppressed)
      ensures Valid() && Runs(me) && old(log) <= log && GoesOn(log, |old(log)|, me) && NoEffects(agent, log, |old(log)|, me)
      ensures failure.None? ==> NoSystem(loaded.messages) && Mine(me) == Moved(agent, old(Mine(me)), SessionRead(loaded.messages))
      ensures failure.None? ==>
                && |log| > |old(log)| && log[|log| - 1] == By(me, SessionRead(loaded.messages))
                && Holds(agent, SessionsAfter(log[..|log| - 1]), session, loaded.version, loaded.messages)
      ensures faults >= old(faults) && (failure.Some? <==> faults > old(faults))
    {
      hide Valid;
      ghost var start := log;
      failure, loaded := LoadSession(me, session);
      OthersGoOn(log, |start|, me);
      if failure.Some? {
        return;
      }
      ghost var unread := log;
      StoreIsKnown();
      Act(me, SessionRead(loaded.messages));
      assert log[..|log| - 1] == unread;
      ReadsOn(unread, log, me, loaded.messages);
      GoesOnJoined(unread, log, |start|, me);
    }

    lemma StoreIsKnown()
      requires Valid()
      ensures sessions == SessionsAfter(log)
    {
      hide SessionsAfter;
    }

    method PrepareContinue(me: Who, request: Request, prompt: string, attempted0: seq<string>)
      returns (failure: Option<Failure>, w: Work, attempted: seq<string>, ghost begin: nat, ghost read: nat)
      requires Valid() && !Runs(me) && request.Continue?
      modifies this
      ensures Valid() && old(log) <= log && attempted0 <= attempted
      ensures attempted == [] ==> NoEffects(agent, log, |old(log)|, me)
      ensures attempted0 == [] && attempted != [] ==> !NoEffects(agent, log, |old(log)|, me)
      ensures failure == Some(RetrySuppressed) ==> attempted != []
      ensures Underway(log, |old(log)|, me, request)
      ensures failure.None? ==> Runs(me) && Ready(|old(log)|, me, request, prompt, w, begin, read)
      ensures faults >= old(faults) && (failure.None? ==> faults == old(faults))
      ensures failure.Some? && faults == old(faults) ==> Refused(request, failure.value)
    {
      hide Valid, Working, Restored, Underway, GoesOn, NoEffects, BeganAt, SessionReadAt, Refused;
      attempted := attempted0;
      ghost var start := log;
      failure, w, begin, read := ConsumeAndRead(me, request, prompt);
      if failure.Some? {
        return;
      }
      ghost var restored, paused := log, w;
      failure, w, attempted := ReplayWave(me, w, request.decision, attempted);
      NoEffectsJoined(agent, restored, log, |start|, me);
      StillUnderway(restored, log, |start|, me, request);
      if failure.None? {
        BegunStays(agent, restored, log, begin, me, request, prompt, paused, w);
        ReadStays(agent, restored, log, read, me, paused, w);
        NowReady(|start|, me, request, prompt, w, begin, read);
      }
    }

    // The pending approval and the session as it is now.
    method ConsumeAndRead(me: Who, request: Request, prompt: string)
      returns (failure: Option<Failure>, w: Work, ghost begin: nat, ghost read: nat)
      requires Valid() && !Runs(me) && request.Continue?
      modifies this
      ensures failure != Some(RetrySuppressed)
      ensures Valid() && old(log) <= log && NoEffects(agent, log, |old(log)|, me)
      ensures Underway(log, |old(log)|, me, request)
      ensures failure.None? ==>
                && Runs(me) && Restored(agent, Mine(me), w, request.decision) && w.iterations < agent.maxIterations
                && |old(log)| <= begin <= read && BeganAt(agent, log, begin, me, request, prompt, w)
                && SessionReadAt(agent, log, read, me, w)
      ensures faults >= old(faults) && (failure.None? ==> faults == old(faults))
      ensures failure.Some? && faults == old(faults) ==> Refused(request, failure.value)
    {
      hide *;
      read := 0;
      failure, w, begin := Consume(me, request);
      if failure.Some? {
        return;
      }
      ghost var begun, pending, consumed := log, Mine(me), w;
      ghost var start := old(log);
      var loaded: Session;
      failure, loaded := ReadSession(me, w.session);
      NoEffectsJoined(agent, begun, log, |start|, me);
      StillUnderway(begun, log, |start|, me, request);
      if failure.Some? {
        return;
      }
      read := |log| - 1;
      w := w.(version := loaded.version, history := loaded.messages, tail := |HistoryTail(loaded.messages)|);
      SessionIsLoaded(agent, pending, consumed, w, request.decision, loaded);
      ConsumedBegan(begun, log, begin, me, request, prompt, consumed, w, loaded);
      JustRead(log, me, w);
    }

    // Event `begin` consumed the approval that the state is taken from.
    ghost predicate ConsumedAt(log: seq<Event>, begin: nat, me: Who, request: Request, w: Work) {
      && request.Continue? && begin < |log| && Begins(log[begin], me) && log[begin].cid == w.cid == request.requestId
      && w.history == []
      && (var origin := log[begin].origin;
          && origin.FromApproval? && origin.id == request.continuationId && origin.decision == request.decision
          && origin.approval.agentId == agent.id
          && w.session == (if request.sessionId.Some? then request.sessionId else origin.approval.sessionId)
          && w.input == origin.approval.input && w.messages == origin.approval.messages
          && w.results == origin.approval.results && w.iterations == origin.approval.iterations)
    }

    lemma ConsumedBegan(
      before: seq<Event>, log: seq<Event>, begin: nat, me: Who, request: Request, prompt: string, w0: Work, w: Work, loaded: Session)
      requires before <= log && ConsumedAt(before, begin, me, request, w0)
      requires w == w0.(version := loaded.version, history := loaded.messages, tail := |HistoryTail(loaded.messages)|)
      ensures BeganAt(agent, log, begin, me, request, prompt, w)
    {
      hide FreshTranscript;
      assert log[begin] == before[begin];
    }

    lemma JustRead(log: seq<Event>, me: Who, w: Work)
      requires log != [] && log[|log| - 1] == By(me, SessionRead(w.history))
      requires Holds(agent, SessionsAfter(log[..|log| - 1]), w.session, w.version, w.history)
      ensures SessionReadAt(agent, log, |log| - 1, me, w)
    {
      hide SessionsAfter;
    }

    // The consumption of a continuation's approval, after others had their turn.
    method Consume(me: Who, request: Request) returns (failure: Option<Failure>, w: Work, ghost begin: nat)
      requires Valid() && !Runs(me) && request.Continue?
      modifies this
      ensures failure != Some(RetrySuppressed)
      ensures Valid() && old(log) <= log && Underway(log, |old(log)|, me, request)
      ensures NoEffects(agent, log, |old(log)|, me)
      ensures faults >= old(faults) && (failure.None? ==> faults == old(faults))
      ensures failure.Some? && faults == old(faults) ==> Refused(request, failure.value)
      ensures failure.None? ==>
                && |old(log)| <= begin == |log| - 1 && ConsumedAt(log, begin, me, request, w)
                && w.iterations < agent.maxIterations
                && Runs(me) && Restored(agent, Mine(me), w, request.decision)
    {
      hide Valid, Restored, Underway, GoesOn;
      ghost var start := log;
      Interfere(me);
      OthersGoOn(log, |start|, me);
      NotYet(start, me, request);
      StillUnderway(start, log, |start|, me, request);
      begin := |log|;
      ghost var before := log;
      failure, w := ConsumeApproval(me, request);
      if failure.Some? {
        OthersGoOn(log, |before|, me);
        StillUnderway(before, log, |start|, me, request);
      } else {
        BeginsHere(before, log, |start|, request.requestId, log[begin].origin, me, request);
      }
    }

    // Store the turn in the session, remember the exchange, and drop the
    // checkpoint; any of the three may fail.
    method Conclude(me: Who, w: Work, completed: Outcome) returns (outcome: Outcome)
      requires Valid() && Runs(me) && Finished(agent, Mine(me), w) && completed.Completed?
      modifies this
      ensures outcome != Failed(RetrySuppressed)
      ensures Valid() && Runs(me) && Closing(old(log), log, me)
      ensures outcome == completed || outcome.Failed?
      ensures outcome == completed ==>
                && Finished(agent, Mine(me), w)
                && (agent.checkpointing ==> log != [] && log[|log| - 1] == By(me, Deleted) && w.cid !in checkpoints)
                && StoredIn(log, |old(log)|, me, w)
      ensures faults >= old(faults) && (outcome == completed ==> faults == old(faults))
      ensures outcome.Failed? && faults == old(faults) ==> outcome == Failed(Raised(true)) && agent.sessions && w.session.Some?
    {
      hide Valid, Dangling, Shaped, Closing, Quiet, TurnStored;
      outcome := completed;
      ghost var k, start := 0, log;
      ClosedYet(start, me);
      if agent.sessions && w.session.Some? {
        FinishedHasNoSystem(agent, Mine(me), w);
        var conflict := UpdateSession(me, w);
        if conflict.Some? {
          return Failed(conflict.value);
        }
        k := |log| - 1;
      }
      ghost var stored := log;
      ClosingHasNoEffects(agent, start, log, |start|, me);
      var _, forgotten := Await();
      if forgotten.Some? {
        return Failed(forgotten.value);
      }
      if agent.checkpointing {
        var kept := DeleteCheckpoint(me);
        ClosingQuietly(start, stored, log, me);
        QuietAlone(agent, stored, log, me);
        if kept.Some? {
          return Failed(kept.value);
        }
      }
      if agent.sessions && w.session.Some? {
        TurnStays(stored, log, k, me, w);
        StoredIsEarlier(log, k, me, w);
      }
    }

    // Everything from the request to the end of the attempt, or to a failure.
    method RunAttempt(me: Who, request: Request, prompt: string, attempted0: seq<string>)
      returns (outcome: Outcome, w: Work, attempted: seq<string>, ghost begin: nat)
      requires Valid() && !Runs(me)
      modifies this
      ensures Valid() && old(log) <= log && attempted0 <= attempted
      ensures attempted == [] ==> NoEffects(agent, log, |old(log)|, me)
      ensures attempted0 == [] && attempted != [] ==> !NoEffects(agent, log, |old(log)|, me)
      ensures outcome == Failed(RetrySuppressed) ==> attempted != []
      ensures Single(log, |old(log)|, me, request)
      ensures !outcome.Failed? ==> |old(log)| <= begin && BeganAt(agent, log, begin, me, request, prompt, w)
      ensures outcome.Completed? ==>
                && Runs(me) && Finished(agent, Mine(me), w) && Reports(outcome, w)
                && (agent.checkpointing ==> w.cid !in checkpoints)
                && StoredIn(log, |old(log)|, me, w) && LeavesTurn(agent, log, begin, me, w)
      ensures outcome.AwaitingApproval? ==>
                && (request.Continue? ==> outcome.continuation == request.continuationId)
                && PausedOn(outcome.continuation, me, w) && !Runs(me)
      ensures faults >= old(faults) && (!outcome.Failed? ==> faults == old(faults))
      ensures outcome.Failed? && faults == old(faults) ==> FailsByItself(request, outcome.failure)
    {
      hide Valid, Dangling, Shaped, Working, NoEffects, PausedOn, Finished, BeganAt, Quiet, Closing,
        Underway, Single, GoesOn, StoredIn, LeavesTurn, SessionReadAt, Reports, Refused;
      var failure: Option<Failure>;
      ghost var read;
      failure, w, attempted, begin, read := Prepare(me, request, prompt, attempted0);
      ghost var start := old(log);
      UnderwayIsSingle(log, |start|, me, request);
      if failure.Some? {
        return Failed(failure.value), w, attempted, begin;
      }
      ghost var before, first := log, w;
      if agent.checkpointing {
        failure := SaveCheckpoint(me, w);
        QuietHasNoEffects(agent, before, log, |start|, me);
        StillUnderway(before, log, |start|, me, request);
        UnderwayIsSingle(log, |start|, me, request);
        if failure.Some? {
          return Failed(failure.value), w, attempted, begin;
        }
      }
      ghost var started := log;
      var continuation := if request.Continue? then Some(request.continuationId) else None;
      outcome, w, attempted := RunLoop(me, w, continuation, attempted);
      NoEffectsJoined(agent, started, log, |start|, me);
      StillUnderway(started, log, |start|, me, request);
      UnderwayIsSingle(log, |start|, me, request);
      if outcome.Failed? {
        return;
      }
      BegunStays(agent, before, log, begin, me, request, prompt, first, w);
      if outcome.AwaitingApproval? {
        return;
      }
      ghost var looped := log;
      outcome := Conclude(me, w, outcome);
      ClosingHasNoEffects(agent, looped, log, |start|, me);
      ClosesSingle(looped, log, |start|, me, request);
      ContinuesItself(w);
      BegunStays(agent, looped, log, begin, me, request, prompt, w, w);
      if outcome.Completed? {
        StoredLater(log, |looped|, |start|, me, w);
        AttemptLeavesTurn(before, log, begin, read, |looped|, me, first, w);
      }
    }

    lemma AttemptLeavesTurn(before: seq<Event>, log: seq<Event>, from: nat, read: nat, looped: nat, me: Who, w0: Work, w: Work)
      requires before <= log && from <= read && SessionReadAt(agent, before, read, me, w0)
      requires |before| <= looped && StoredIn(log, looped, me, w)
      requires w.session == w0.session && w.version == w0.version && w.history == w0.history
      ensures LeavesTurn(agent, log, from, me, w)
    {
      if agent.sessions && w.session.Some? {
        var k :| looped <= k < |log| && TurnStored(log, k, me, w);
        TurnIsLeft(agent, before, log, from, read, k, me, w0, w);
      }
      hide SessionReadAt, TurnStored;
    }

    // What an attempt can fail with when no await and no tool did: the request is
    // refused, or its session changed since it was read.
    ghost predicate FailsByItself(request: Request, failure: Failure) {
      Refused(request, failure) || (agent.sessions && failure == Raised(true))
    }

    // The turn was stored by this attempt.
    ghost predicate StoredIn(log: seq<Event>, from: nat, me: Who, w: Work) {
      agent.sessions && w.session.Some? ==>
        exists k :: from <= k < |log| && TurnStored(log, k, me, w)
    }

    lemma StoredLater(log: seq<Event>, from: nat, earlier: nat, me: Who, w: Work)
      requires earlier <= from && StoredIn(log, from, me, w)
      ensures StoredIn(log, earlier, me, w)
    {
    }

    // The attempt is over, if it did not end in a pause or fail to begin.
    method EndAttempt(me: Who) returns (ghost last: Attempt)
      requires Valid()
      modifies this`log, this`books
      ensures Valid() && !Runs(me) && Accepted(agent, log) && Quiet(old(log), log, me) && old(log) <= log
      ensures !old(Runs(me)) ==> log == old(log) && books == old(books)
      ensures old(Runs(me)) ==>
                && log == old(log) + [By(me, Ended)] && last == old(Mine(me))
                && me in Replay(agent, old(log)).attempts && Replay(agent, old(log)).attempts[me] == last
    {
      hide Replay, Accepted;
      last := Attempt(0, "", false, View([], {}, 0), None, 0, None, 0, false, 0);
      if me in books.attempts {
        last := Mine(me);
        Act(me, Ended);
      }
    }

    method InvokeInner(me: Who, request: Request, prompt: string, attempted0: seq<string>)
      returns (outcome: Outcome, w: Work, attempted: seq<string>, ghost begin: nat, ghost last: Attempt, ghost opener: nat)
      requires Valid() && !Runs(me)
      modifies this
      ensures Valid() && !Runs(me) && old(log) <= log && attempted0 <= attempted
      ensures attempted == [] ==> NoEffects(agent, log, |old(log)|, me)
      ensures attempted0 == [] && attempted != [] ==> !NoEffects(agent, log, |old(log)|, me)
      ensures outcome == Failed(RetrySuppressed) ==> attempted != []
      ensures Single(log, |old(log)|, me, request)
      ensures !outcome.Failed? ==> |old(log)| <= begin && BeganAt(agent, log, begin, me, request, prompt, w)
      ensures outcome.Completed? ==>
                && Reports(outcome, w)
                && Concluded(agent, log, |old(log)|, me, last, w)
                && StoresItsTurn(agent, log, opener, last, w) && LeavesTurn(agent, log, begin, me, w)
                && (agent.checkpointing ==> w.cid !in checkpoints)
      ensures outcome.AwaitingApproval? ==>
                && (request.Continue? ==> outcome.continuation == request.continuationId)
                && PausedOn(outcome.continuation, me, w)
      ensures faults >= old(faults) && (!outcome.Failed? ==> faults == old(faults))
      ensures outcome.Failed? && faults == old(faults) ==> FailsByItself(request, outcome.failure)
    {
      hide *;
      opener := 0;
      outcome, w, attempted, begin := RunAttempt(me, request, prompt, attempted0);
      ghost var before := log;
      last := EndAttempt(me);
      QuietHasNoEffects(agent, before, log, |old(log)|, me);
      StaysSingle(before, log, |old(log)|, me, request);
      if outcome.Completed? {
        EndedConcluded(before, log, |old(log)|, me, last, w);
        opener := ChainTailOf(agent, log, me, last, w);
        ContinuesItself(w);
        BegunStays(agent, before, log, begin, me, request, prompt, w, w);
        LeavesTurnStill(agent, before, log, begin, me, w);
      } else if outcome.AwaitingApproval? {
        assert log == before;
      }
    }

    lemma EndedConcluded(before: seq<Event>, log: seq<Event>, from: nat, me: Who, last: Attempt, w: Work)
      requires log == before + [By(me, Ended)] && from <= |before|
      requires me in Replay(agent, before).attempts && Replay(agent, before).attempts[me] == last
      requires Finished(agent, last, w) && StoredIn(before, from, me, w)
      ensures Concluded(agent, log, from, me, last, w)
      ensures log != [] && log[|log| - 1] == By(me, Ended) && log[..|log| - 1] == before
    {
      assert log[..|log| - 1] == before;
      hide Finished, Replay;
      if agent.sessions && w.session.Some? {
        var k :| from <= k < |before| && TurnStored(before, k, me, w);
        TurnStays(before, log, k, me, w);
      }
    }

    // -------------------------------------------------------------------
    // The whole invocation, with retries
    // -------------------------------------------------------------------

    // Why an invocation stops trying. Only errors that are not known to be final are
    // followed by another attempt; and an error ends it only if it is final, an
    // effect was attempted, time is up, the attempts are used, or the policy or
    // streamed output forbid another one.
    ghost predicate EndsFor(semantics: Semantics, ending: Ending, attempts: nat, waits: nat, streamed: bool, errors: seq<Failure>) {
      && attempts >= 1 && attempts - 1 <= |errors| <= attempts
      && (|errors| == attempts <==> ending.ErrorRaised? || ending.FallbackResponse?)
      && (forall a :: 0 <= a < attempts - 1 ==> errors[a] in {Raised(true), CheckpointNotFound})
      && (ending.FallbackResponse? ==> semantics.errorPolicy == FallbackPolicy && attempts == 1 && !errors[0].DeadlineExceeded?)
      && (ending.ErrorRaised? ==>
            var last := errors[attempts - 1];
            if ending.failure.DeadlineExceeded? then last.DeadlineExceeded? || waits == attempts
            else if streamed && attempts == 1 then ending.failure == Raised(true)
            else
              && semantics.errorPolicy != FallbackPolicy
              && (semantics.errorPolicy == FailPolicy ==> ending.failure == last)
              && (semantics.errorPolicy == RetryPolicy ==>
                    || ending.failure.RetrySuppressed?
                    || (ending.failure == last &&
                        (last in {ContinuationNotFound, InvalidRequest, Raised(false)} || attempts == 1 + semantics.retryMaxAttempts))))
    }

    ghost predicate RetriesEndFor(max: nat, ending: Ending, attempts: nat, waits: nat, errors: seq<Failure>) {
      && attempts >= 1 && attempts - 1 <= |errors| <= attempts
      && (|errors| == attempts <==> ending.ErrorRaised?)
      && (forall a :: 0 <= a < attempts - 1 ==> errors[a] in {Raised(true), CheckpointNotFound})
      && (ending.ErrorRaised? ==>
            var last := errors[attempts - 1];
            if ending.failure.DeadlineExceeded? then last.DeadlineExceeded? || waits == attempts
            else
              || ending.failure.RetrySuppressed?
              || (ending.failure == last && (last in {ContinuationNotFound, InvalidRequest, Raised(false)} || attempts == 1 + max)))
    }

    // What a response stands for: the conversation that this attempt began for
    // this request has ended and its turn is stored.
    ghost predicate Justifies(
      from: nat, me: Who, request: Request, prompt: string, outcome: Outcome, w: Work, begin: nat, last: Attempt, opener: nat)
      reads this
    {
      && Reports(outcome, w)
      && from <= begin && BeganAt(agent, log, begin, me, request, prompt, w)
      && Concluded(agent, log, from, me, last, w)
      && StoresItsTurn(agent, log, opener, last, w) && LeavesTurn(agent, log, begin, me, w)
      && (agent.checkpointing ==> w.cid !in checkpoints)
    }

    lemma ResponseStored(marks: seq<nat>, me: Who, request: Request, last: Attempt, w: Work)
      requires Attempts(log, marks, me, request) && |marks| >= 2 && Concluded(agent, log, marks[|marks| - 2], me, last, w)
      requires agent.sessions && w.session.Some?
      ensures StoresAtMostOnce(log, marks[0], me) <==> StoresNothing(log, marks[0], marks[|marks| - 2], me)
    {
      hide Finished, StoredTurn, Replay, IsAttempt, SessionsAfter;
      var k :| marks[|marks| - 2] <= k < |log| && TurnStored(log, k, me, w);
      assert During(marks, |marks| - 2, k) && Stores(log[k], me);
      LastStoresExactly(log, marks, me, request);
    }

    // What the attempts of one invocation did twice, if anything.
    lemma OnceExactly(me: Who, request: Request, marks: seq<nat>)
      requires Valid() && Attempts(log, marks, me, request)
      ensures StoresAtMostOnce(log, marks[0], me) <==> OneAttemptStores(log, marks, me)
      ensures request.Continue? ==>
                (BeginsAtMostOnce(log, marks[0], me) <==> !PausedAgain(log, marks[0], me, request.continuationId))
    {
      TurnStoredOnceExactly(log, marks, me, request);
      if request.Continue? {
        DecidesOnceExactly(agent, log, marks, me, request);
      }
    }

    method Invoke(me: Who, request: Request, prompt: string, semantics: Semantics)
      returns (ending: Ending, attempts: nat, delays: seq<real>, streamed: bool, ghost errors: seq<Failure>, ghost marks: seq<nat>,
               ghost w: Work, ghost begin: nat, ghost last: Attempt, ghost opener: nat)
      requires Valid() && !Runs(me)
      modifies this
      ensures Valid() && !Runs(me) && old(log) <= log && faults >= old(faults)
      ensures EndsFor(semantics, ending, attempts, |delays|, streamed, errors)
      ensures ending.Responded? && attempts == 1 ==> faults == old(faults)
      ensures ending.ErrorRaised? && faults == old(faults) && !streamed ==>
                || FailsByItself(request, ending.failure) || ending.failure.RetrySuppressed?
                || (ending.failure.DeadlineExceeded? && |delays| == attempts)
      ensures 1 <= attempts <= 1 + semantics.retryMaxAttempts
      ensures semantics.errorPolicy != RetryPolicy ==> attempts == 1
      ensures attempts - 1 <= |delays| <= attempts && Backoff(semantics.backoff, delays)
      ensures |marks| == attempts + 1 && marks[0] == |old(log)| && OnlyLastHasEffects(agent, log, marks, me)
      ensures ending == ErrorRaised(RetrySuppressed) ==> !NoEffects(agent, log, marks[attempts - 1], me)
      ensures Attempts(log, marks, me, request)
      ensures StoresAtMostOnce(log, |old(log)|, me) <==> OneAttemptStores(log, marks, me)
      ensures ending.Responded? && agent.sessions && w.session.Some? ==>
                (StoresAtMostOnce(log, |old(log)|, me) <==> StoresNothing(log, |old(log)|, marks[attempts - 1], me))
      ensures request.Continue? ==>
                (BeginsAtMostOnce(log, |old(log)|, me) <==> !PausedAgain(log, |old(log)|, me, request.continuationId))
      ensures ending.FallbackResponse? ==> semantics.errorPolicy == FallbackPolicy
      ensures ending.Responded? ==>
                Justifies(marks[attempts - 1], me, request, prompt, ending.outcome, w, begin, last, opener)
      ensures ending.ApprovalRequired? ==> PausedOn(ending.continuation, me, w) && attempts == 1
      ensures ending.PauseRaised? ==> PausedOn(ending.continuation, me, w) && attempts > 1
    {
      hide Valid, Runs, BeganAt, Concluded, StoresItsTurn, OnlyLastHasEffects, NoEffects, PausedOn, Attempts, Single,
        StoresAtMostOnce, OneAttemptStores, StoresNothing, BeginsAtMostOnce, PausedAgain;
      attempts, delays, errors, marks := 1, [], [], [|log|];
      NoAttempt(log, me, request);
      var outcome: Outcome, work: Work, attempted: seq<string>;
      outcome, work, attempted, begin, last, opener := InvokeInner(me, request, prompt, []);
      w := work;
      marks := marks + [|log|];
      OneMark(agent, log, marks, me);
      OneAttemptMore(old(log), log, [|old(log)|], me, request);
      OnceExactly(me, request, marks);
      streamed := *;
      match outcome {
        case Completed(_, _) =>
          if agent.sessions && w.session.Some? {
            ResponseStored(marks, me, request, last, w);
          }
          ending := Responded(outcome);
          return;
        case AwaitingApproval(id) =>
          ending := ApprovalRequired(id);
          return;
        case Failed(_) =>
      }
      var failure := outcome.failure;
      errors := [failure];
      var final := FirstFailure(semantics, failure, streamed, attempted);
      if final.Some? {
        ending := final.value;
        return;
      }
      ending, attempts, delays, errors, marks, w, begin, last, opener := Retries(me, request, prompt, semantics, failure, marks);
      OnceExactly(me, request, marks);
      if ending.Responded? && agent.sessions && w.session.Some? {
        ResponseStored(marks, me, request, last, w);
      }
    }

    lemma ItIsJustified(
      from: nat, me: Who, request: Request, prompt: string, outcome: Outcome, w: Work, begin: nat, last: Attempt, opener: nat)
      requires Reports(outcome, w) && from <= begin && BeganAt(agent, log, begin, me, request, prompt, w)
      requires Concluded(agent, log, from, me, last, w) && StoresItsTurn(agent, log, opener, last, w)
      requires LeavesTurn(agent, log, begin, me, w) && (agent.checkpointing ==> w.cid !in checkpoints)
      ensures Justifies(from, me, request, prompt, outcome, w, begin, last, opener)
    {
      hide BeganAt, Concluded, StoresItsTurn, LeavesTurn;
    }

    // The retries after a first attempt that started no effect.
    method Retries(me: Who, request: Request, prompt: string, semantics: Semantics, first: Failure, ghost marks0: seq<nat>)
      returns (ending: Ending, attempts: nat, delays: seq<real>, ghost errors: seq<Failure>, ghost marks: seq<nat>,
               ghost w: Work, ghost begin: nat, ghost last: Attempt, ghost opener: nat)
      requires Valid() && !Runs(me) && first in {Raised(true), CheckpointNotFound}
      requires |marks0| == 2 && OnlyLastHasEffects(agent, log, marks0, me) && NoEffects(agent, log, marks0[0], me)
      requires marks0[1] == |log| && Attempts(log, marks0, me, request)
      modifies this
      ensures Valid() && !Runs(me) && old(log) <= log && faults >= old(faults)
      ensures RetriesEndFor(semantics.retryMaxAttempts, ending, attempts, |delays|, errors)
      ensures ending.Responded? || ending.PauseRaised? ==> attempts > 1
      ensures ending.ErrorRaised? && faults == old(faults) ==>
                || ending.failure == first || FailsByItself(request, ending.failure) || ending.failure.RetrySuppressed?
                || (ending.failure.DeadlineExceeded? && |delays| == attempts)
      ensures 1 <= attempts <= 1 + semantics.retryMaxAttempts
      ensures attempts - 1 <= |delays| <= attempts && Backoff(semantics.backoff, delays)
      ensures |marks| == attempts + 1 && marks[0] == marks0[0] && OnlyLastHasEffects(agent, log, marks, me)
      ensures ending == ErrorRaised(RetrySuppressed) ==> !NoEffects(agent, log, marks[attempts - 1], me)
      ensures Attempts(log, marks, me, request)
      ensures ending.Responded? ==>
                Justifies(marks[attempts - 1], me, request, prompt, ending.outcome, w, begin, last, opener)
      ensures !ending.FallbackResponse? && !ending.ApprovalRequired?
      ensures ending.PauseRaised? ==> PausedOn(ending.continuation, me, w) && attempts > 1
    {
      hide Valid, Runs, OnlyLastHasEffects, NoEffects, PausedOn, Attempts, Single, Justifies, FailsByItself, Planned, Reports,
        BeganAt, Concluded, StoresItsTurn, LeavesTurn;
      var failure, attempted := first, [];
      var outcome: Outcome, work: Work;
      begin, opener, last := 0, 0, Attempt(0, "", false, View([], {}, 0), None, 0, None, 0, false, 0);
      w := Work("", None, 0, [], "", [], [], 0, 0, []);
      attempts, delays, errors, marks := 1, [], [first], marks0;
      for retryIndex := 0 to semantics.retryMaxAttempts
        invariant Valid() && !Runs(me) && old(log) <= log
        invariant attempts == retryIndex + 1 && |delays| == retryIndex && Backoff(semantics.backoff, delays)
        invariant |marks| == attempts + 1 && marks[0] == marks0[0] && marks[attempts] == |log|
        invariant OnlyLastHasEffects(agent, log, marks, me) && Attempts(log, marks, me, request)
        invariant attempted == [] ==> NoEffects(agent, log, marks0[0], me)
        invariant attempted != [] ==> !NoEffects(agent, log, marks[attempts - 1], me)
        invariant faults >= old(faults) && (faults == old(faults) ==> failure == first || FailsByItself(request, failure))
        invariant |errors| == attempts && errors[retryIndex] == failure
        invariant forall a :: 0 <= a < retryIndex ==> errors[a] in {Raised(true), CheckpointNotFound}
        invariant !failure.DeadlineExceeded? && !failure.RetrySuppressed?
      {
        if attempted != [] {
          return ErrorRaised(RetrySuppressed), attempts, delays, errors, marks, w, begin, last, opener;
        }
        if !Retryable(failure) {
          return ErrorRaised(failure), attempts, delays, errors, marks, w, begin, last, opener;
        }
        var delay := Planned(semantics.backoff, retryIndex);
        delays := delays + [delay];
        var remaining: seq<real> := *;
        var waited, _ := WaitForRetry(delay, remaining);
        if !waited {
          return ErrorRaised(DeadlineExceeded), attempts, delays, errors, marks, w, begin, last, opener;
        }
        ghost var before := log;
        outcome, work, attempted, begin, last, opener := InvokeInner(me, request, prompt, attempted);
        w := work;
        OneMore(agent, before, log, marks, me);
        OneAttemptMore(before, log, marks, me, request);
        NoEffectsJoined(agent, before, log, marks0[0], me);
        attempts, marks := attempts + 1, marks + [|log|];
        match outcome {
          case Completed(_, _) =>
            ItIsJustified(marks[attempts - 1], me, request, prompt, outcome, w, begin, last, opener);
            return Responded(outcome), attempts, delays, errors, marks, w, begin, last, opener;
          case AwaitingApproval(id) => return PauseRaised(id), attempts, delays, errors, marks, w, begin, last, opener;
          case Failed(again) =>
            failure, errors := again, errors + [again];
            if failure.DeadlineExceeded? || failure.RetrySuppressed? {
              return ErrorRaised(failure), attempts, delays, errors, marks, w, begin, last, opener;
            }
        }
      }
      ending := ErrorRaised(failure);
    }
  }
}
