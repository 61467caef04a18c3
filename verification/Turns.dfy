// What a finished invocation leaves in the session.
module Turns {
  import opened Wrappers
  import opened AgentModel
  import opened ReplayLedger
  import opened ReplayTheorems
  import opened Runtime

  // The messages since the history the transcript was built on.
  function Turn(a: Attempt, w: Work): seq<Message> {
    Suffix(w.messages, 1 + a.view.tail)
  }

  // A finished turn has no system prompt, and every assistant message in it is
  // answered in full before anything else happens, except a last one that the
  // iteration limit cut off.
  lemma TurnShape(agent: Agent, a: Attempt, w: Work)
    requires Finished(agent, a, w)
    ensures forall m <- Turn(a, w) :: !m.System?
    ensures 1 + a.view.tail < |w.messages|
    ensures var turn := Turn(a, w);
            && turn != []
            && var last := turn[|turn| - 1];
               && last.Assistant?
               && if last.calls == [] then Groups(turn, a.view.replayed)
                  else w.iterations == agent.maxIterations && Groups(turn[..|turn| - 1], a.view.replayed)
  {
    var tail := a.view.tail;
    var n := |w.messages| - 1;
    var turn := Turn(a, w);
    if w.messages[n].calls != [] {
      assert w.messages[..n][1 + tail..] == turn[..|turn| - 1];
    }
    assert forall i :: 1 <= i < n ==> w.messages[..n][i] == w.messages[i];
    forall m | m in turn ensures !m.System? {
      var k :| 0 <= k < |turn| && turn[k] == m;
      assert m == w.messages[1 + tail + k];
    }
  }

  // A conversation that went through no approval stores its turn, however often
  // it was resumed from checkpoints and whatever happened to the session.
  lemma UnapprovedStoresItsTurn(agent: Agent, log: seq<Event>, from: nat, me: Who, last: Attempt, w: Work)
    requires Accepted(agent, log) && Concluded(agent, log, from, me, last, w) && last.view.replayed == {}
    ensures StoredTurn(w) == w.history + Turn(last, w)
  {
    hide Replay, Accepted, Finished, Suffix;
    AttemptKeptAt(agent, log, |log| - 1, me);
    EndsOnItsTail(agent, last, w);
  }

  lemma AttemptKeptAt(agent: Agent, log: seq<Event>, n: nat, who: Who)
    requires Accepted(agent, log) && n <= |log| && who in Replay(agent, log[..n]).attempts
    ensures AttemptKept(agent, Replay(agent, log[..n]), Replay(agent, log[..n]).attempts[who])
  {
    hide Replay, Accepted, AttemptKept;
    PrefixAccepted(agent, log, n);
    AcceptedIsKept(agent, log[..n]);
  }

  lemma TurnStarts(agent: Agent, last: Attempt, w: Work)
    requires Finished(agent, last, w)
    ensures 1 + last.view.tail < |w.messages|
  {
    TurnShape(agent, last, w);
  }

  lemma EndsOnItsTail(agent: Agent, last: Attempt, w: Work)
    requires Finished(agent, last, w)
    ensures last.tail == w.tail
  {
  }

  // A continuation stores its turn exactly when the history it found in its
  // session has a tail as long as the one its chain was opened on.
  lemma ContinuationStoresItsTurn(
    agent: Agent, log: seq<Event>, from: nat, begin: nat, me: Who, request: Request, prompt: string,
    last: Attempt, opener: nat, w: Work)
    requires Accepted(agent, log) && Concluded(agent, log, from, me, last, w) && StoresItsTurn(agent, log, opener, last, w)
    requires BeganAt(agent, log, begin, me, request, prompt, w) && request.Continue?
    ensures StoredTurn(w) == w.history + Turn(last, w)
       <==> |HistoryTail(w.history)| == |HistoryTail(log[opener].origin.history)|
  {
    var n := |log| - 1;
    hide Replay, Accepted, Finished, Suffix, StoresItsTurn, Opens;
    AttemptKeptAt(agent, log, n, me);
    PrefixAccepted(agent, log, n);
    var k := ChainTail(agent, log[..n], last.chain);
    OpensLonger(agent, log, n, k, last.chain);
    RightTail(agent, log, opener, last, w);
    OneOpener(agent, log, k, opener, last.chain);
    OpenedWithin(agent, log, n, k, last.chain);
  }

  lemma OpenedWithin(agent: Agent, log: seq<Event>, n: nat, k: nat, c: nat)
    requires n <= |log| && Opens(agent, log[..n], k, c)
    ensures k < n && log[..n][k] == log[k]
  {
  }

  lemma RightTail(agent: Agent, log: seq<Event>, opener: nat, last: Attempt, w: Work)
    requires StoresItsTurn(agent, log, opener, last, w)
    ensures Opens(agent, log, opener, last.chain) && opener < |log| && log[opener].Begun? && log[opener].origin.FromRequest?
    ensures var built := |HistoryTail(log[opener].origin.history)|;
            StoredTurn(w) == w.history + Suffix(w.messages, 1 + built) <==> w.tail == built
  {
    hide Replay;
  }

  // A chain is opened once.
  lemma OneOpener(agent: Agent, log: seq<Event>, i: nat, j: nat, c: nat)
    requires Accepted(agent, log) && Opens(agent, log, i, c) && Opens(agent, log, j, c)
    ensures i == j
  {
    if i < j {
      OpenedBefore(agent, log, i, j);
    } else if j < i {
      OpenedBefore(agent, log, j, i);
    }
  }

  lemma {:induction false} OpenedBefore(agent: Agent, log: seq<Event>, i: nat, j: nat)
    requires Accepted(agent, log) && i < j <= |log| && log[i].Begun? && log[i].origin.FromRequest?
    ensures |Replay(agent, log[..j]).chains| > |Replay(agent, log[..i]).chains|
    decreases j
  {
    hide *;
    StepAt(agent, log, j - 1);
    ChainsGrow(agent, Replay(agent, log[..j - 1]), log[j - 1]);
    if i < j - 1 {
      OpenedBefore(agent, log, i, j - 1);
    }
  }

  lemma ChainsGrow(agent: Agent, l: Ledger, e: Event)
    ensures |Apply(agent, l, e).chains| >= |l.chains|
    ensures e.Begun? && e.origin.FromRequest? ==> |Apply(agent, l, e).chains| == |l.chains| + 1
  {
    hide Effects;
  }

  // Otherwise the session got too little or too much: a longer tail swallows
  // the first messages of the turn, a shorter one repeats the last messages of
  // the history in front of it.
  lemma StoredOtherwise(agent: Agent, last: Attempt, w: Work)
    requires Finished(agent, last, w)
    ensures var built := last.view.tail;
            var turn := Turn(last, w);
            if w.tail >= built then StoredTurn(w) == w.history + Suffix(turn, w.tail - built)
            else StoredTurn(w) == w.history + (w.messages[1 + w.tail..1 + built] + turn)
  {
    var built := last.view.tail;
    hide Finished, Suffix;
    TurnStarts(agent, last, w);
    if w.tail < built {
      ShorterTail(w.messages, w.tail, built);
    } else {
      LongerTail(w.messages, built, w.tail);
    }
  }

  lemma ShorterTail(s: seq<Message>, tail: nat, built: nat)
    requires tail < built && 1 + built <= |s|
    ensures Suffix(s, 1 + tail) == s[1 + tail..1 + built] + Suffix(s, 1 + built)
  {
  }

  lemma LongerTail(s: seq<Message>, built: nat, tail: nat)
    requires built <= tail && 1 + built <= |s|
    ensures Suffix(s, 1 + tail) == Suffix(Suffix(s, 1 + built), tail - built)
  {
  }

  // ---------------------------------------------------------------------
  // Both really happen
  // ---------------------------------------------------------------------

  // A conversation that pauses on its first answer, is denied, and ends.
  // `before` is the session's history when it began, `now` when it went on.
  function PausedApproval(agent: Agent, prompt: string, before: seq<Message>, call: ToolRequest): Approval {
    Approval(agent.id, [call], FreshTranscript(prompt, before, "q") + [Assistant("", [call])], [], 1, Some("s"), "q")
  }

  function DeniedRun(agent: Agent, prompt: string, before: seq<Message>, now: seq<Message>, call: ToolRequest): seq<Event> {
    var approval := PausedApproval(agent, prompt, before, call);
    [Begun(0, "r", FromRequest(before)), By(0, ModelCalled), By(0, Paused("k", approval)),
     Begun(1, "r2", FromApproval("k", approval, Deny)), By(1, SessionRead(now)), By(1, ReplayEnded), By(1, ModelCalled)]
  }

  function DeniedWork(agent: Agent, prompt: string, before: seq<Message>, now: seq<Message>, call: ToolRequest): Work {
    Work("r2", Some("s"), 1, now, "q",
         PausedApproval(agent, prompt, before, call).messages + [Tool(None, call.name, "denied by caller: approval denied"), Assistant("bye", [])],
         [DeniedByCaller(call.name, "denied by caller: approval denied")], 2, |HistoryTail(now)|, [])
  }

  lemma DeniedShapes(agent: Agent, prompt: string, before: seq<Message>, call: ToolRequest)
    requires NoSystem(before)
    ensures var paused := PausedApproval(agent, prompt, before, call).messages;
            && Dangling(paused, [call], |HistoryTail(before)|, {})
            && Shaped(paused + [Tool(None, call.name, "denied by caller: approval denied")] + [Assistant("bye", [])],
                      |HistoryTail(before)|, {[call]})
  {
    var tail := |HistoryTail(before)|;
    var opening := FreshTranscript(prompt, before, "q");
    var paused := opening + [Assistant("", [call])];
    var answer := [Tool(None, call.name, "denied by caller: approval denied")];
    FreshShaped(prompt, before, "q");
    ReplyAppended(opening, "", [call], tail, {});
    DanglingMonotone(paused, [call], tail, {}, {[call]});
    assert Answers([call], answer, {[call]});
    DanglingAnswered(paused, [call], answer, tail, {[call]});
    ReplyAppended(paused + answer, "bye", [], tail, {[call]});
  }

  // For any two histories such a run exists, and it stores its turn exactly
  // when their tails are equally long: a session that grew or expired during
  // the pause breaks it.
  lemma PauseAcrossHistories(agent: Agent, prompt: string, before: seq<Message>, now: seq<Message>, call: ToolRequest)
    requires agent.maxIterations >= 3 && NoSystem(before) && NoSystem(now)
    ensures var log := DeniedRun(agent, prompt, before, now, call);
            var w := DeniedWork(agent, prompt, before, now, call);
            && Accepted(agent, log)
            && 1 in Replay(agent, log).attempts
            && var a := Replay(agent, log).attempts[1];
               && Finished(agent, a, w) && a.view.tail == |HistoryTail(before)|
               && (StoredTurn(w) == w.history + Turn(a, w) <==> |HistoryTail(now)| == |HistoryTail(before)|)
  {
    var log := DeniedRun(agent, prompt, before, now, call);
    var w := DeniedWork(agent, prompt, before, now, call);
    DeniedShapes(agent, prompt, before, call);
    DeniedAccepted(agent, prompt, before, now, call);
    var a := Replay(agent, log).attempts[1];
    hide Accepted, Replay;
    DeniedFinished(agent, prompt, before, now, call, a);
    hide DeniedRun, DeniedWork, Finished, Suffix;
    SameStart(agent, a, w);
  }

  lemma SameStart(agent: Agent, a: Attempt, w: Work)
    requires Finished(agent, a, w)
    ensures StoredTurn(w) == w.history + Turn(a, w) <==> w.tail == a.view.tail
  {
    TurnShape(agent, a, w);
    hide Finished;
    if StoredTurn(w) == w.history + Turn(a, w) {
      assert |Suffix(w.messages, 1 + w.tail)| == |Turn(a, w)|;
    }
  }

  lemma DeniedFinished(agent: Agent, prompt: string, before: seq<Message>, now: seq<Message>, call: ToolRequest, a: Attempt)
    requires agent.maxIterations >= 3 && NoSystem(now)
    requires a == Attempt(0, "r2", false, View([], {[call]}, |HistoryTail(before)|), None, 0, None, 2, true, |HistoryTail(now)|)
    requires Shaped(PausedApproval(agent, prompt, before, call).messages + [Tool(None, call.name, "denied by caller: approval denied")] + [Assistant("bye", [])],
                    |HistoryTail(before)|, {[call]})
    ensures Finished(agent, a, DeniedWork(agent, prompt, before, now, call))
  {
    var w := DeniedWork(agent, prompt, before, now, call);
    var paused := PausedApproval(agent, prompt, before, call).messages;
    hide PausedApproval, Shaped, Dangling;
    assert w.messages == paused + [Tool(None, call.name, "denied by caller: approval denied")] + [Assistant("bye", [])];
    assert |w.results| == 1 && w.results[..0] == [] && !w.results[0].Executed?;
    assert EffectCalls(w.results[..0]) == [];
    assert EffectCalls(w.results) == [];
    assert w.messages[|w.messages| - 1] == Assistant("bye", []);
  }

  lemma DeniedAccepted(agent: Agent, prompt: string, before: seq<Message>, now: seq<Message>, call: ToolRequest)
    requires agent.maxIterations >= 3
    requires Dangling(PausedApproval(agent, prompt, before, call).messages, [call], |HistoryTail(before)|, {})
    ensures var log := DeniedRun(agent, prompt, before, now, call);
            var l := Replay(agent, log);
            && Accepted(agent, log) && 1 in l.attempts
            && l.attempts[1] == Attempt(0, "r2", false, View([], {[call]}, |HistoryTail(before)|), None, 0, None, 2, true, |HistoryTail(now)|)
  {
    var log := DeniedRun(agent, prompt, before, now, call);
    var approval := PausedApproval(agent, prompt, before, call);
    var tail := |HistoryTail(before)|;
    FirstHalf(agent, approval, before, call);
    var l3 := Apply(agent, Apply(agent, Apply(agent, EmptyLedger, log[0]), log[1]), log[2]);
    SecondHalf(agent, l3, approval, tail, now, call);
    hide Apply, Allowed, Replay, Accepted;
    SevenSteps(agent, log);
  }

  lemma SevenSteps(agent: Agent, log: seq<Event>)
    requires |log| == 7
    ensures var l1 := Apply(agent, EmptyLedger, log[0]);
            var l2 := Apply(agent, l1, log[1]);
            var l3 := Apply(agent, l2, log[2]);
            var l4 := Apply(agent, l3, log[3]);
            var l5 := Apply(agent, l4, log[4]);
            var l6 := Apply(agent, l5, log[5]);
            && Replay(agent, log) == Apply(agent, l6, log[6])
            && (Accepted(agent, log) <==>
                  && Allowed(agent, EmptyLedger, log[0]) && Allowed(agent, l1, log[1]) && Allowed(agent, l2, log[2])
                  && Allowed(agent, l3, log[3]) && Allowed(agent, l4, log[4]) && Allowed(agent, l5, log[5])
                  && Allowed(agent, l6, log[6]))
  {
    var l: seq<seq<Event>> := [[], log[..1], log[..2], log[..3], log[..4], log[..5], log[..6]];
    assert Replay(agent, l[0]) == EmptyLedger && Accepted(agent, l[0]);
    assert l[1] == l[0] + [log[0]] && l[2] == l[1] + [log[1]] && l[3] == l[2] + [log[2]];
    assert l[4] == l[3] + [log[3]] && l[5] == l[4] + [log[4]] && l[6] == l[5] + [log[5]] && log == l[6] + [log[6]];
    hide *;
    Extend(agent, l[0], log[0]);
    Extend(agent, l[1], log[1]);
    Extend(agent, l[2], log[2]);
    Extend(agent, l[3], log[3]);
    Extend(agent, l[4], log[4]);
    Extend(agent, l[5], log[5]);
    Extend(agent, l[6], log[6]);
  }

  lemma FirstHalf(agent: Agent, approval: Approval, before: seq<Message>, call: ToolRequest)
    requires agent.maxIterations >= 3 && approval.iterations == 1
    requires CompleteApproval(agent, View([], {}, |HistoryTail(before)|), approval)
    ensures var tail := |HistoryTail(before)|;
            var l1 := Apply(agent, EmptyLedger, Begun(0, "r", FromRequest(before)));
            var l2 := Apply(agent, l1, By(0, ModelCalled));
            var l3 := Apply(agent, l2, By(0, Paused("k", approval)));
            && Allowed(agent, EmptyLedger, Begun(0, "r", FromRequest(before)))
            && Allowed(agent, l1, By(0, ModelCalled)) && Allowed(agent, l2, By(0, Paused("k", approval)))
            && l3.approvals == map["k" := Owned(approval, 0, View([], {}, tail))] && l3.attempts == map[]
  {
    hide CompleteApproval;
  }

  lemma SecondHalf(agent: Agent, l3: Ledger, approval: Approval, tail: nat, now: seq<Message>, call: ToolRequest)
    requires agent.maxIterations >= 3 && approval.requests == [call] && approval.iterations == 1 && approval.agentId == agent.id
    requires l3.approvals == map["k" := Owned(approval, 0, View([], {}, tail))] && l3.attempts == map[]
    ensures var l4 := Apply(agent, l3, Begun(1, "r2", FromApproval("k", approval, Deny)));
            var l5 := Apply(agent, l4, By(1, SessionRead(now)));
            var l6 := Apply(agent, l5, By(1, ReplayEnded));
            var l7 := Apply(agent, l6, By(1, ModelCalled));
            && Allowed(agent, l3, Begun(1, "r2", FromApproval("k", approval, Deny)))
            && Allowed(agent, l4, By(1, SessionRead(now))) && Allowed(agent, l5, By(1, ReplayEnded)) && Allowed(agent, l6, By(1, ModelCalled))
            && 1 in l7.attempts
            && l7.attempts[1] == Attempt(0, "r2", false, View([], {[call]}, tail), None, 0, None, 2, true, |HistoryTail(now)|)
  {
  }
}
