// Runs of the runtime's own steps in which a property fails whose exact
// condition is proved elsewhere: a checkpoint resumed beside a running attempt
// repeats a side effect, a retry stores its turn again, and a retry applies a
// decision to a pause it was not made for.
module FailingRuns {
  import opened Wrappers
  import opened AgentModel
  import opened ReplayLedger
  import opened ReplayTheorems
  import opened Histories
  import opened CrashSafety
  import opened Runtime

  lemma BooksReplay(runtime: AdkRuntime)
    requires runtime.Valid()
    ensures runtime.books == Replay(runtime.agent, runtime.log)
  {
    hide Replay;
  }

  // The ledger after a step is the step applied to the ledger before.
  lemma Stepped(runtime: AdkRuntime, l: Ledger, log: seq<Event>, e: Event)
    requires runtime.Valid() && l == Replay(runtime.agent, log) && runtime.log == log + [e]
    ensures runtime.books == Apply(runtime.agent, l, e)
  {
    BooksReplay(runtime);
    hide *;
    Extend(runtime.agent, log, e);
  }

  // ---------------------------------------------------------------------
  // A turn stored twice
  // ---------------------------------------------------------------------

  function Exchange(input: string, answer: string): seq<Message> {
    [User(input), Assistant(answer, [])]
  }

  // One attempt up to the store of its turn: the model answers at once.
  method AnswerAndStore(runtime: AdkRuntime, me: Who, id: Id, session: Id, input: string, prompt: string, answer: string)
    requires runtime.Valid() && !runtime.Runs(me) && session in runtime.sessions
    modifies runtime
    ensures runtime.Valid() && runtime.Runs(me) && session in runtime.sessions
    ensures runtime.sessions[session].messages == old(runtime.sessions[session].messages) + Exchange(input, answer)
    ensures old(runtime.log) < runtime.log && Stores(runtime.log[|runtime.log| - 1], me)
  {
    hide AdkRuntime.Valid, Working, FreshTranscript, NoSystem;
    var loaded := runtime.sessions[session];
    SessionsPlain(runtime, session);
    var w := runtime.StartFresh(me, Fresh(id, Some(session), input), loaded, prompt);
    assert runtime.agent.maxIterations >= 1 by { AgentIsWellFormed(runtime); }
    assert MayAct(runtime.agent, runtime.Mine(me), ModelCalled) by { FreshMayCall(runtime.agent, runtime.Mine(me), w); }
    runtime.Act(me, ModelCalled);
    w := w.(messages := w.messages + [Assistant(answer, [])], iterations := 1);
    AnsweredTurn(prompt, loaded.messages, input, answer, w);
    runtime.StoreTurn(me, w);
  }

  lemma AgentIsWellFormed(runtime: AdkRuntime)
    requires runtime.Valid()
    ensures runtime.agent.maxIterations >= 1
  {
  }

  lemma SessionsPlain(runtime: AdkRuntime, session: Id)
    requires runtime.Valid() && session in runtime.sessions
    ensures NoSystem(runtime.sessions[session].messages)
  {
  }

  lemma FreshMayCall(agent: Agent, a: Attempt, w: Work)
    requires Working(agent, a, w) && w.iterations < agent.maxIterations
    ensures MayAct(agent, a, ModelCalled)
  {
  }

  lemma AnsweredTurn(prompt: string, history: seq<Message>, input: string, answer: string, w: Work)
    requires NoSystem(history) && w.history == history && w.tail == |HistoryTail(history)|
    requires w.messages == FreshTranscript(prompt, history, input) + [Assistant(answer, [])]
    ensures StoredTurn(w) == history + Exchange(input, answer) && NoSystem(StoredTurn(w))
  {
    assert w.messages[1 + w.tail..] == Exchange(input, answer);
  }

  // The first attempt stores its turn and then fails, because the memory store
  // raises a retryable error after it or the reply to the store is lost. No tool
  // was attempted, so the attempt is made again, on the session as it is now.
  method TurnStoredTwice(runtime: AdkRuntime, me: Who, id: Id, session: Id, input: string, prompt: string, answer: string)
    requires runtime.Valid() && !runtime.Runs(me) && session in runtime.sessions
    modifies runtime
    ensures runtime.Valid() && !runtime.Runs(me) && session in runtime.sessions
    ensures runtime.sessions[session].messages ==
              old(runtime.sessions[session].messages) + Exchange(input, answer) + Exchange(input, answer)
    ensures !StoresAtMostOnce(runtime.log, |old(runtime.log)|, me)
  {
    hide AdkRuntime.Valid;
    AnswerAndStore(runtime, me, id, session, input, prompt, answer);
    ghost var first := |runtime.log| - 1;
    runtime.Act(me, Ended);
    AnswerAndStore(runtime, me, id, session, input, prompt, answer);
    ghost var second := |runtime.log| - 1;
    runtime.Act(me, Ended);
    assert Stores(runtime.log[first], me) && Stores(runtime.log[second], me);
  }

  // ---------------------------------------------------------------------
  // A decision applied to a second pause
  // ---------------------------------------------------------------------

  // The model asks for one call, and the attempt pauses on it.
  method AskAndPause(runtime: AdkRuntime, me: Who, w0: Work, call: ToolRequest, continuation: Id) returns (w: Work)
    requires runtime.Valid() && runtime.Runs(me) && Working(runtime.agent, runtime.Mine(me), w0)
    requires w0.iterations + 1 < runtime.agent.maxIterations
    modifies runtime
    ensures runtime.Valid() && !runtime.Runs(me)
    ensures w.iterations == w0.iterations + 1
    ensures runtime.log == old(runtime.log) + [By(me, ModelCalled), By(me, Paused(continuation, PauseOf(runtime.agent, w, [call])))]
    ensures runtime.approvals == old(runtime.approvals)[continuation := PauseOf(runtime.agent, w, [call])]
  {
    hide AdkRuntime.Valid, Shaped, Dangling, CompleteApproval;
    var agent := runtime.agent;
    runtime.Act(me, ModelCalled);
    var a := runtime.Mine(me);
    ReplyAppended(w0.messages, "", [call], a.view.tail, a.view.replayed);
    w := w0.(messages := w0.messages + [Assistant("", [call])], iterations := w0.iterations + 1);
    AskedMayPause(agent, a, w, [call], continuation);
    runtime.PutApproval(me, continuation, PauseOf(agent, w, [call]));
  }

  // The attempt consumes the approval that is pending now, and reads a session
  // without messages.
  method TakePending(runtime: AdkRuntime, me: Who, id: Id, continuation: Id) returns (w: Work)
    requires runtime.Valid() && !runtime.Runs(me)
    requires continuation in runtime.approvals && runtime.approvals[continuation].agentId == runtime.agent.id
    modifies runtime
    ensures runtime.Valid() && runtime.Runs(me)
    ensures var approval := old(runtime.approvals[continuation]);
            && w == Work(id, None, 0, [], approval.input, approval.messages, approval.results, approval.iterations, 0, approval.requests)
            && Restored(runtime.agent, runtime.Mine(me), w, Approve)
            && runtime.log == old(runtime.log) + [Begun(me, id, FromApproval(continuation, approval, Approve)), By(me, SessionRead([]))]
  {
    hide AdkRuntime.Valid, Dangling;
    var approval := runtime.approvals[continuation];
    w := Work(id, None, 0, [], approval.input, approval.messages, approval.results, approval.iterations, 0, approval.requests);
    runtime.TakeApproval(me, continuation, Approve, w);
    runtime.Act(me, SessionRead([]));
  }

  // The wave of one call is answered from the registry, without its body.
  method ReplayDeduplicated(runtime: AdkRuntime, me: Who, w0: Work, call: ToolRequest, prior: string) returns (w: Work)
    requires runtime.Valid() && runtime.Runs(me) && Restored(runtime.agent, runtime.Mine(me), w0, Approve) && w0.wave == [call]
    modifies runtime
    ensures runtime.Valid() && runtime.Runs(me) && runtime.log == old(runtime.log) + [By(me, ReplayEnded)]
    ensures Working(runtime.agent, runtime.Mine(me), w) && w.iterations == w0.iterations
  {
    hide AdkRuntime.Valid, Dangling, Shaped;
    ghost var paused := runtime.Mine(me);
    runtime.Act(me, ReplayEnded);
    var results := [Deduplicated(call.name, call.id, prior)];
    var answers := ReplayedMessages(results);
    w := w0.(messages := w0.messages + answers, results := w0.results + results, wave := []);
    assert EffectCalls(results[..0]) == [] && EffectCalls(results) == [];
    assert paused.view.begun + [] == paused.view.begun;
    WaveAnswered(runtime.agent, paused, runtime.Mine(me), w0, w, [call], results, answers);
  }

  // The caller approves the call pending under `continuation`. It turns out to be
  // published already, so nothing is attempted; the model asks for another call,
  // and the pause on it is stored under the same id while the reply is lost. The
  // retry finds it pending and begins the other call's body, on the decision that
  // was made for the first.
  method SecondPauseDecided(
    runtime: AdkRuntime, me: Who, id: Id, continuation: Id, published: ToolRequest, gated: ToolRequest, prior: string)
    requires runtime.Valid() && !runtime.Runs(me)
    requires var agent := runtime.agent;
             && agent.registry && published.key.Some? && HasEffect(agent, published.name) && Permitted(agent, published, true)
             && gated.key.None? && GatedByApproval(agent, gated.name) && Permitted(agent, gated, true)
             && continuation in runtime.approvals
             && var approval := runtime.approvals[continuation];
                approval.agentId == agent.id && approval.requests == [published] && approval.iterations + 1 < agent.maxIterations
    modifies runtime
    ensures runtime.Valid() && runtime.Runs(me) && old(runtime.log) < runtime.log
    ensures PausedAgain(runtime.log, |old(runtime.log)|, me, continuation)
    ensures !BeginsAtMostOnce(runtime.log, |old(runtime.log)|, me)
    ensures NoEffects(runtime.agent, runtime.log[..|runtime.log| - 1], |old(runtime.log)|, me)
    ensures runtime.log[|runtime.log| - 1] == By(me, Started(gated, 0))
  {
    hide AdkRuntime.Valid, Restored, Working, Permitted, GatedByApproval, PausedAgain, BeginsAtMostOnce, NoEffects;
    ghost var start, approval := runtime.log, runtime.approvals[continuation];
    var w := TakePending(runtime, me, id, continuation);
    w := ReplayDeduplicated(runtime, me, w, published, prior);
    w := AskAndPause(runtime, me, w, gated, continuation);
    ghost var second := PauseOf(runtime.agent, w, [gated]);
    w := TakePending(runtime, me, id, continuation);
    MayStartApproved(runtime.agent, runtime.Mine(me), w, gated);
    runtime.Act(me, Started(gated, 0));
    SecondPauseShown(runtime.agent, start, runtime.log, me, id, continuation, approval, second, gated);
  }

  lemma SecondPauseShown(
    agent: Agent, start: seq<Event>, log: seq<Event>, me: Who, id: Id, continuation: Id, approval: Approval, second: Approval, gated: ToolRequest)
    requires log == start + [Begun(me, id, FromApproval(continuation, approval, Approve)), By(me, SessionRead([])), By(me, ReplayEnded)]
                    + [By(me, ModelCalled), By(me, Paused(continuation, second))]
                    + [Begun(me, id, FromApproval(continuation, second, Approve)), By(me, SessionRead([])), By(me, Started(gated, 0))]
    ensures PausedAgain(log, |start|, me, continuation) && !BeginsAtMostOnce(log, |start|, me)
    ensures NoEffects(agent, log[..|log| - 1], |start|, me) && start < log && log[|log| - 1] == By(me, Started(gated, 0))
  {
    var n := |start|;
    assert Begins(log[n], me) && Pauses(log[n + 4], continuation) && Begins(log[n + 5], me);
  }

  lemma MayStartApproved(agent: Agent, a: Attempt, w: Work, call: ToolRequest)
    requires Restored(agent, a, w, Approve) && w.wave == [call] && Permitted(agent, call, true) && call.key.None?
    ensures MayAct(agent, a, Started(call, 0))
  {
    hide Dangling, Permitted;
  }

  // ---------------------------------------------------------------------
  // A side effect repeated
  // ---------------------------------------------------------------------

  // Record `c` is stored under `id` for a chain, complete for its view.
  ghost predicate RecordOf(agent: Agent, l: Ledger, id: Id, chain: nat, c: Checkpoint) {
    && id in l.checkpoints && l.checkpoints[id].Owned? && l.checkpoints[id].chain == chain
    && l.checkpoints[id].record == c && CompleteCheckpoint(agent, l.checkpoints[id].view, c)
  }

  // `who` works on the chain and is where record `c` was made.
  ghost predicate AtRecord(agent: Agent, l: Ledger, who: Who, id: Id, chain: nat, c: Checkpoint) {
    && who in l.attempts
    && var a := l.attempts[who];
       && a.chain == chain && a.cid == id && a.approved.None?
       && a.iterations == c.iterations && a.tail == c.historyTail && CompleteCheckpoint(agent, a.view, c)
  }

  ghost predicate OthersStay(l: Ledger, l': Ledger, who: Who) {
    && (forall w :: w != who ==> (w in l'.attempts <==> w in l.attempts))
    && (forall w :: w in l.attempts && w != who ==> l'.attempts[w] == l.attempts[w])
  }

  ghost predicate StartedOn(l: Ledger, chain: nat, calls: seq<Call>) {
    chain < |l.chains| && l.chains[chain].started == calls
  }

  lemma OthersStayAt(agent: Agent, l: Ledger, l': Ledger, who: Who, other: Who, id: Id, chain: nat, c: Checkpoint)
    requires OthersStay(l, l', who) && who != other
    ensures other in l.attempts <==> other in l'.attempts
    ensures other in l.attempts ==> l'.attempts[other] == l.attempts[other]
    ensures AtRecord(agent, l, other, id, chain, c) ==> AtRecord(agent, l', other, id, chain, c)
  {
    hide CompleteCheckpoint;
  }

  // The runtime's steps, with what they do to the ledger.
  method CallsModel(runtime: AdkRuntime, who: Who)
    requires runtime.Valid() && runtime.Runs(who) && MayAct(runtime.agent, runtime.Mine(who), ModelCalled)
    modifies runtime
    ensures runtime.Valid() && runtime.log == old(runtime.log) + [By(who, ModelCalled)]
    ensures runtime.books == Apply(runtime.agent, old(runtime.books), By(who, ModelCalled))
  {
    BooksReplay(runtime);
    hide *;
    ghost var l, log := runtime.books, runtime.log;
    runtime.Act(who, ModelCalled);
    Stepped(runtime, l, log, By(who, ModelCalled));
  }

  method BeginsBody(runtime: AdkRuntime, who: Who, request: ToolRequest)
    requires runtime.Valid() && runtime.Runs(who) && MayAct(runtime.agent, runtime.Mine(who), Started(request, 0))
    modifies runtime
    ensures runtime.Valid() && runtime.log == old(runtime.log) + [By(who, Started(request, 0))]
    ensures runtime.books == Apply(runtime.agent, old(runtime.books), By(who, Started(request, 0)))
  {
    BooksReplay(runtime);
    hide *;
    ghost var l, log := runtime.books, runtime.log;
    runtime.Act(who, Started(request, 0));
    Stepped(runtime, l, log, By(who, Started(request, 0)));
  }

  method Saves(runtime: AdkRuntime, who: Who, c: Checkpoint)
    requires runtime.Valid() && runtime.Runs(who) && MayAct(runtime.agent, runtime.Mine(who), Saved(c))
    modifies runtime
    ensures runtime.Valid() && runtime.log == old(runtime.log) + [By(who, Saved(c))]
    ensures runtime.books == Apply(runtime.agent, old(runtime.books), By(who, Saved(c)))
    ensures runtime.checkpoints == old(runtime.checkpoints)[old(runtime.Mine(who).cid) := c]
  {
    BooksReplay(runtime);
    hide *;
    ghost var l, log := runtime.books, runtime.log;
    runtime.PutCheckpoint(who, c);
    Stepped(runtime, l, log, By(who, Saved(c)));
  }

  method Deletes(runtime: AdkRuntime, who: Who)
    requires runtime.Valid() && runtime.Runs(who)
    modifies runtime
    ensures runtime.Valid() && runtime.log == old(runtime.log) + [By(who, Deleted)]
    ensures runtime.books == Apply(runtime.agent, old(runtime.books), By(who, Deleted))
  {
    BooksReplay(runtime);
    hide *;
    ghost var l, log := runtime.books, runtime.log;
    runtime.DropCheckpoint(who);
    Stepped(runtime, l, log, By(who, Deleted));
  }

  // An attempt begins with the record that is stored.
  method ResumesRecord(runtime: AdkRuntime, who: Who, id: Id, ghost chain: nat)
    requires runtime.Valid() && !runtime.Runs(who) && id in runtime.checkpoints
    requires RecordOf(runtime.agent, runtime.books, id, chain, runtime.checkpoints[id])
    modifies runtime
    ensures runtime.Valid() && old(runtime.log) <= runtime.log
    ensures AtRecord(runtime.agent, runtime.books, who, id, chain, old(runtime.checkpoints[id]))
    ensures runtime.books.attempts[who].view == old(runtime.books.checkpoints[id].view)
    ensures OthersStay(old(runtime.books), runtime.books, who)
    ensures runtime.books.chains == old(runtime.books.chains)
  {
    hide AdkRuntime.Valid, Working, Shaped;
    BooksReplay(runtime);
    var c := runtime.checkpoints[id];
    ghost var l, log := runtime.books, runtime.log;
    var w := runtime.TakeCheckpoint(who, id);
    Stepped(runtime, l, log, Begun(who, id, FromCheckpoint(id, c)));
  }

  // It calls the model, which asks for a tool; it deletes the record and begins
  // the tool's body.
  method GoesToTool(runtime: AdkRuntime, who: Who, request: ToolRequest, ghost chain: nat, ghost calls: seq<Call>)
    requires runtime.Valid() && runtime.Runs(who) && StartedOn(runtime.books, chain, calls)
    requires var a := runtime.Mine(who); a.chain == chain && a.approved.None? && a.iterations + 1 < runtime.agent.maxIterations
    requires HasEffect(runtime.agent, request.name) && Permitted(runtime.agent, request, false) && request.key.None?
    modifies runtime
    ensures runtime.Valid() && old(runtime.log) <= runtime.log
    ensures OthersStay(old(runtime.books), runtime.books, who)
    ensures StartedOn(runtime.books, chain, calls + [Call(request.name, request.id)])
  {
    ghost var l := runtime.books;
    ToolBegun(runtime.agent, l, who, request, chain, calls);
    hide *;
    CallsModel(runtime, who);
    Deletes(runtime, who);
    BeginsBody(runtime, who, request);
  }

  lemma ToolBegun(agent: Agent, l: Ledger, who: Who, request: ToolRequest, chain: nat, calls: seq<Call>)
    requires who in l.attempts && StartedOn(l, chain, calls)
    requires var a := l.attempts[who]; a.chain == chain && a.approved.None? && a.iterations + 1 < agent.maxIterations
    requires HasEffect(agent, request.name) && Permitted(agent, request, false) && request.key.None?
    ensures var l1 := Apply(agent, l, By(who, ModelCalled));
            var l2 := Apply(agent, l1, By(who, Deleted));
            var l3 := Apply(agent, l2, By(who, Started(request, 0)));
            && MayAct(agent, l.attempts[who], ModelCalled)
            && who in l1.attempts && who in l2.attempts && MayAct(agent, l2.attempts[who], Started(request, 0))
            && OthersStay(l, l3, who) && StartedOn(l3, chain, calls + [Call(request.name, request.id)])
  {
    FirstGoesOn(agent, l, who, request);
    hide Apply, Permitted, HasEffect;
  }

  // The attempt stores the record it is at, beside a body begun since.
  method SavesAgain(runtime: AdkRuntime, who: Who, id: Id, c: Checkpoint, ghost chain: nat, ghost calls: seq<Call>)
    requires runtime.Valid() && runtime.agent.checkpointing && c.agentId == runtime.agent.id
    requires AtRecord(runtime.agent, runtime.books, who, id, chain, c) && StartedOn(runtime.books, chain, calls)
    requires |calls| > |runtime.books.attempts[who].view.begun|
    modifies runtime
    ensures runtime.Valid() && old(runtime.log) <= runtime.log && id in runtime.checkpoints && runtime.checkpoints[id] == c
    ensures RecordOf(runtime.agent, runtime.books, id, chain, c) && StartedOn(runtime.books, chain, calls)
    ensures !CrashSafe(runtime.agent, runtime.books)
    ensures OthersStay(old(runtime.books), runtime.books, who)
  {
    SavedAgain(runtime.agent, runtime.books, who, id, c, chain, calls);
    hide *;
    Saves(runtime, who, c);
  }

  lemma SavedAgain(agent: Agent, l: Ledger, who: Who, id: Id, c: Checkpoint, chain: nat, calls: seq<Call>)
    requires agent.checkpointing && c.agentId == agent.id
    requires AtRecord(agent, l, who, id, chain, c) && StartedOn(l, chain, calls) && |calls| > |l.attempts[who].view.begun|
    ensures who in l.attempts && l.attempts[who].cid == id && MayAct(agent, l.attempts[who], Saved(c))
    ensures var l' := Apply(agent, l, By(who, Saved(c)));
            && RecordOf(agent, l', id, chain, c) && StartedOn(l', chain, calls) && OthersStay(l, l', who)
            && !CrashSafe(agent, l')
  {
    SecondSaves(agent, l, l, who, c);
    hide CompleteCheckpoint, CrashSafe;
    assert l.chains[chain].started + [] == calls;
  }

  method StartAndSave(runtime: AdkRuntime, who: Who, id: Id, input: string, prompt: string) returns (c: Checkpoint, ghost chain: nat)
    requires runtime.Valid() && runtime.books.attempts == map[] && runtime.agent.checkpointing
    modifies runtime
    ensures runtime.Valid() && id in runtime.checkpoints && runtime.checkpoints[id] == c
    ensures c.agentId == runtime.agent.id && c.iterations == 0
    ensures RecordOf(runtime.agent, runtime.books, id, chain, c) && AtRecord(runtime.agent, runtime.books, who, id, chain, c)
    ensures id in runtime.books.checkpoints && runtime.books.checkpoints[id].Owned? && runtime.books.checkpoints[id].view.begun == []
    ensures StartedOn(runtime.books, chain, [])
    ensures forall w :: w != who ==> w !in runtime.books.attempts
  {
    ghost var l := runtime.books;
    chain := |l.chains|;
    hide AdkRuntime.Valid, Working, Apply, MayAct, CompleteCheckpoint, StartedOn, RecordOf, AtRecord;
    var w := StartsFresh(runtime, who, id, input, prompt);
    c := Snapshot(runtime.agent, w);
    FirstSaves(runtime.agent, l, who, id, w);
    Saves(runtime, who, c);
  }

  lemma FirstSaves(agent: Agent, l: Ledger, who: Who, id: Id, w: Work)
    requires l.attempts == map[] && agent.checkpointing && w.cid == id && w.iterations < agent.maxIterations
    requires var l1 := Apply(agent, l, Begun(who, id, FromRequest([]))); who in l1.attempts && Working(agent, l1.attempts[who], w)
    ensures var l1 := Apply(agent, l, Begun(who, id, FromRequest([])));
            var c := Snapshot(agent, w);
            var l2 := Apply(agent, l1, By(who, Saved(c)));
            && MayAct(agent, l1.attempts[who], Saved(c)) && l1.attempts[who].cid == id
            && RecordOf(agent, l2, id, |l.chains|, c) && AtRecord(agent, l2, who, id, |l.chains|, c)
            && id in l2.checkpoints && l2.checkpoints[id].Owned? && l2.checkpoints[id].view.begun == []
            && StartedOn(l2, |l.chains|, []) && (forall other :: other != who ==> other !in l2.attempts)
  {
    var l1 := Apply(agent, l, Begun(who, id, FromRequest([])));
    WorkingMaySave(agent, l1.attempts[who], w);
    hide Working, Shaped;
  }

  method StartsFresh(runtime: AdkRuntime, who: Who, id: Id, input: string, prompt: string) returns (w: Work)
    requires runtime.Valid() && !runtime.Runs(who)
    modifies runtime
    ensures runtime.Valid() && runtime.Runs(who) && Working(runtime.agent, runtime.Mine(who), w) && w.cid == id && w.iterations == 0
    ensures w.iterations < runtime.agent.maxIterations
    ensures runtime.books == Apply(runtime.agent, old(runtime.books), Begun(who, id, FromRequest([])))
  {
    AgentIsWellFormed(runtime);
    BooksReplay(runtime);
    hide *;
    ghost var l, log := runtime.books, runtime.log;
    w := runtime.StartFresh(who, Fresh(id, None, input), Session(0, []), prompt);
    Stepped(runtime, l, log, Begun(who, id, FromRequest([])));
  }

  // The first attempt begins, and the second resumes the checkpoint it saved
  // while it is still running.
  method TwoOnOneChain(runtime: AdkRuntime, first: Who, second: Who, id: Id, input: string, prompt: string)
    returns (c: Checkpoint, ghost chain: nat)
    requires runtime.Valid() && runtime.books.attempts == map[] && runtime.agent.checkpointing && first != second
    modifies runtime
    ensures runtime.Valid() && c.agentId == runtime.agent.id && c.iterations == 0
    ensures AtRecord(runtime.agent, runtime.books, first, id, chain, c)
    ensures AtRecord(runtime.agent, runtime.books, second, id, chain, c)
    ensures forall w :: w != first && w != second ==> w !in runtime.books.attempts
    ensures runtime.books.attempts[second].view.begun == [] && StartedOn(runtime.books, chain, [])
  {
    c, chain := StartAndSave(runtime, first, id, input, prompt);
    hide AdkRuntime.Valid, CompleteCheckpoint;
    ghost var l := runtime.books;
    ResumesRecord(runtime, second, id, chain);
    OthersStayAt(runtime.agent, l, runtime.books, second, first, id, chain, c);
  }

  // The first goes on to begin a tool's body, and the second saves the transcript
  // it began with.
  method SavesBeside(runtime: AdkRuntime, first: Who, second: Who, id: Id, c: Checkpoint, request: ToolRequest, ghost chain: nat)
    requires runtime.Valid() && first != second && runtime.agent.checkpointing && runtime.agent.maxIterations >= 2
    requires c.agentId == runtime.agent.id && c.iterations == 0
    requires AtRecord(runtime.agent, runtime.books, first, id, chain, c)
    requires AtRecord(runtime.agent, runtime.books, second, id, chain, c)
    requires runtime.books.attempts[second].view.begun == [] && StartedOn(runtime.books, chain, [])
    requires HasEffect(runtime.agent, request.name) && Permitted(runtime.agent, request, false) && request.key.None?
    modifies runtime
    ensures runtime.Valid() && old(runtime.log) <= runtime.log && !CrashSafe(runtime.agent, runtime.books)
    ensures id in runtime.checkpoints && runtime.checkpoints[id] == c && RecordOf(runtime.agent, runtime.books, id, chain, c)
    ensures StartedOn(runtime.books, chain, [Call(request.name, request.id)])
    ensures forall w :: w != first && w != second ==> (w in runtime.books.attempts <==> w in old(runtime.books.attempts))
  {
    hide AdkRuntime.Valid, CompleteCheckpoint, CrashSafe, HasEffect, Permitted, StartedOn;
    ghost var l := runtime.books;
    GoesToTool(runtime, first, request, chain, []);
    OthersStayAt(runtime.agent, l, runtime.books, first, second, id, chain, c);
    assert [] + [Call(request.name, request.id)] == [Call(request.name, request.id)];
    SavesAgain(runtime, second, id, c, chain, [Call(request.name, request.id)]);
  }

  // A request runs out of time on its caller's side while the attempt is still
  // running, and the caller resumes its checkpoint. Both go on; the resumed
  // attempt saves the transcript it began with after the first has begun a tool's
  // body. When the process dies then, the third attempt resumes that record and
  // begins the same body again.
  method EffectRepeated(
    runtime: AdkRuntime, first: Who, second: Who, third: Who, id: Id, input: string, prompt: string, request: ToolRequest)
    returns (ghost crash: nat, ghost chain: nat)
    requires runtime.Valid() && runtime.books.attempts == map[] && first != second && third !in {first, second}
    requires runtime.agent.checkpointing && runtime.agent.maxIterations >= 2
    requires HasEffect(runtime.agent, request.name) && Permitted(runtime.agent, request, false) && request.key.None?
    modifies runtime
    ensures runtime.Valid() && crash <= |runtime.log|
    ensures !CrashSafe(runtime.agent, Replay(runtime.agent, runtime.log[..crash]))
    ensures var call := Call(request.name, request.id); StartedOn(runtime.books, chain, [call, call])
  {
    hide AdkRuntime.Valid, CompleteCheckpoint, CrashSafe, Replay, HasEffect, Permitted, StartedOn, RecordOf, AtRecord;
    var c: Checkpoint;
    c, chain := TwoOnOneChain(runtime, first, second, id, input, prompt);
    SavesBeside(runtime, first, second, id, c, request, chain);
    ghost var history := runtime.log;
    crash := |history|;
    BooksReplay(runtime);
    BeginsOnceMore(runtime, third, id, c, request, chain, [Call(request.name, request.id)]);
    assert runtime.log[..crash] == history;
    assert [Call(request.name, request.id)] + [Call(request.name, request.id)] == [Call(request.name, request.id), Call(request.name, request.id)];
  }

  // The record is resumed, and the body begun on its chain.
  method BeginsOnceMore(
    runtime: AdkRuntime, who: Who, id: Id, c: Checkpoint, request: ToolRequest, ghost chain: nat, ghost calls: seq<Call>)
    requires runtime.Valid() && !runtime.Runs(who) && id in runtime.checkpoints && runtime.checkpoints[id] == c
    requires c.iterations + 1 < runtime.agent.maxIterations
    requires RecordOf(runtime.agent, runtime.books, id, chain, c) && StartedOn(runtime.books, chain, calls)
    requires HasEffect(runtime.agent, request.name) && Permitted(runtime.agent, request, false) && request.key.None?
    modifies runtime
    ensures runtime.Valid() && old(runtime.log) <= runtime.log
    ensures StartedOn(runtime.books, chain, calls + [Call(request.name, request.id)])
  {
    hide AdkRuntime.Valid, CompleteCheckpoint, HasEffect, Permitted;
    ResumesRecord(runtime, who, id, chain);
    GoesToTool(runtime, who, request, chain, calls);
  }
}
