// Histories as one invocation sees them: which events are its own, what its
// attempts began and stored, and what its retries can do twice.
module Histories {
  import opened Wrappers
  import opened AgentModel
  import opened ReplayLedger
  import opened ReplayTheorems

  predicate Own(e: Event, me: Who) {
    (e.Begun? || e.By?) && e.who == me
  }

  // The invocation's last event, whatever others did since.
  ghost predicate OwnLast(log: seq<Event>, e: Event) {
    e.By? && exists k :: 0 <= k < |log| && log[k] == e && forall j :: k < j < |log| ==> !Own(log[j], e.who)
  }

  // From event `from` on this invocation began no tool body with an effect.
  ghost predicate NoEffects(agent: Agent, log: seq<Event>, from: nat, me: Who) {
    forall k :: from <= k < |log| && StartsAs(log[k], me) ==> !HasEffect(agent, log[k].act.request.name)
  }

  ghost predicate NoneOwn(log: seq<Event>, from: nat, me: Who) {
    forall k :: from <= k < |log| ==> !Own(log[k], me)
  }

  predicate Begins(e: Event, me: Who) {
    e.Begun? && e.who == me
  }

  predicate Stores(e: Event, me: Who) {
    e.By? && e.who == me && e.act.SessionStored?
  }

  // It neither began an attempt nor stored a turn.
  ghost predicate GoesOn(log: seq<Event>, from: nat, me: Who) {
    forall k :: from <= k < |log| ==> !Begins(log[k], me) && !Stores(log[k], me)
  }

  // Nothing of its own but bookkeeping: no body started either.
  ghost predicate Quiet(before: seq<Event>, after: seq<Event>, me: Who) {
    && before <= after
    && forall k :: |before| <= k < |after| ==> !Begins(after[k], me) && !StartsAs(after[k], me) && !Stores(after[k], me)
  }

  ghost predicate StoresAtMostOnce(log: seq<Event>, from: nat, me: Who) {
    forall i, j :: from <= i < |log| && from <= j < |log| && Stores(log[i], me) && Stores(log[j], me) ==> i == j
  }

  ghost predicate StoresNothing(log: seq<Event>, from: nat, until: nat, me: Who) {
    forall k :: from <= k < until && k < |log| ==> !Stores(log[k], me)
  }

  // Bookkeeping, and the turn stored at most once.
  ghost predicate Closing(before: seq<Event>, after: seq<Event>, me: Who) {
    && before <= after
    && (forall k :: |before| <= k < |after| ==> !Begins(after[k], me) && !StartsAs(after[k], me))
    && StoresAtMostOnce(after, |before|, me)
  }

  // The kind of start a request asks for.
  predicate AskedFor(request: Request, origin: Origin) {
    match request
    case Fresh(_, _, _) => origin.FromRequest?
    case Resume(_, id, _) => origin.FromCheckpoint? && origin.id == id
    case Continue(_, _, id, decision) => origin.FromApproval? && origin.id == id && origin.decision == decision
  }

  ghost predicate BeginsAtMostOnce(log: seq<Event>, from: nat, me: Who) {
    forall i, j :: from <= i < |log| && from <= j < |log| && Begins(log[i], me) && Begins(log[j], me) ==> i == j
  }

  ghost predicate BeginsAsAsked(log: seq<Event>, from: nat, me: Who, request: Request) {
    forall k :: from <= k < |log| && Begins(log[k], me) ==> AskedFor(request, log[k].origin)
  }

  // One attempt so far: begun at most once, as the request asks for, and
  // nothing stored.
  ghost predicate Underway(log: seq<Event>, from: nat, me: Who, request: Request) {
    && BeginsAtMostOnce(log, from, me) && BeginsAsAsked(log, from, me, request)
    && from <= |log| && StoresNothing(log, from, |log|, me)
  }

  // One whole attempt.
  ghost predicate Single(log: seq<Event>, from: nat, me: Who, request: Request) {
    BeginsAtMostOnce(log, from, me) && BeginsAsAsked(log, from, me, request) && StoresAtMostOnce(log, from, me)
  }

  lemma NotYet(log: seq<Event>, me: Who, request: Request)
    ensures Underway(log, |log|, me, request)
  {
  }

  lemma OthersGoOn(log: seq<Event>, from: nat, me: Who)
    requires NoneOwn(log, from, me)
    ensures GoesOn(log, from, me)
  {
  }

  lemma BeginsHere(before: seq<Event>, log: seq<Event>, from: nat, cid: Id, origin: Origin, me: Who, request: Request)
    requires from <= |before| && GoesOn(before, from, me)
    requires log == before + [Begun(me, cid, origin)] && AskedFor(request, origin)
    ensures Underway(log, from, me, request)
  {
  }

  lemma StillUnderway(before: seq<Event>, log: seq<Event>, from: nat, me: Who, request: Request)
    requires before <= log && Underway(before, from, me, request) && GoesOn(log, |before|, me)
    ensures Underway(log, from, me, request)
  {
  }

  lemma UnderwayIsSingle(log: seq<Event>, from: nat, me: Who, request: Request)
    requires Underway(log, from, me, request)
    ensures Single(log, from, me, request)
  {
  }

  lemma ClosesSingle(before: seq<Event>, log: seq<Event>, from: nat, me: Who, request: Request)
    requires Underway(before, from, me, request) && Closing(before, log, me)
    ensures Single(log, from, me, request)
  {
  }

  lemma StaysSingle(before: seq<Event>, log: seq<Event>, from: nat, me: Who, request: Request)
    requires from <= |before| && Single(before, from, me, request) && Quiet(before, log, me)
    ensures Single(log, from, me, request)
  {
  }

  lemma ClosedYet(log: seq<Event>, me: Who)
    ensures Closing(log, log, me)
  {
  }

  // Between actions of others, exactly one body begun.
  ghost predicate BeganOne(start: seq<Event>, log: seq<Event>, me: Who, request: ToolRequest, position: nat) {
    && start <= log
    && exists k :: |start| <= k < |log| && log[k] == By(me, Started(request, position))
                   && forall j :: |start| <= j < |log| && j != k ==> !Own(log[j], me)
  }

  lemma OneBody(
    agent: Agent, start: seq<Event>, before: seq<Event>, after: seq<Event>, log: seq<Event>, me: Who, request: ToolRequest, position: nat)
    requires start <= before && NoneOwn(before, |start|, me)
    requires after == before + [By(me, Started(request, position))] && after <= log && NoneOwn(log, |after|, me)
    ensures BeganOne(start, log, me, request, position) && GoesOn(log, |start|, me)
    ensures NoEffects(agent, log, |start|, me) <==> !HasEffect(agent, request.name)
  {
    var k := |before|;
    assert log[k] == By(me, Started(request, position));
    hide HasEffect;
  }

  lemma ReplayEndsQuietly(before: seq<Event>, log: seq<Event>, me: Who)
    requires log == before + [By(me, ReplayEnded)]
    ensures Quiet(before, log, me)
  {
  }

  lemma ReadsOn(before: seq<Event>, log: seq<Event>, me: Who, history: seq<Message>)
    requires log == before + [By(me, SessionRead(history))]
    ensures GoesOn(log, |before|, me)
  {
  }

  // Others acted, and then at most one event of its own, which begins nothing.
  lemma BookkeepingOnly(start: seq<Event>, before: seq<Event>, log: seq<Event>, me: Who)
    requires start <= before && NoneOwn(before, |start|, me)
    requires log == before || (exists act: Act :: !act.Started? && !act.SessionStored? && log == before + [By(me, act)])
    ensures Quiet(start, log, me)
  {
  }

  lemma StoringOnly(start: seq<Event>, before: seq<Event>, log: seq<Event>, me: Who)
    requires start <= before && NoneOwn(before, |start|, me)
    requires log == before || (exists act: Act :: !act.Started? && log == before + [By(me, act)])
    ensures Closing(start, log, me)
  {
  }

  lemma ClosingQuietly(start: seq<Event>, before: seq<Event>, log: seq<Event>, me: Who)
    requires Closing(start, before, me) && Quiet(before, log, me)
    ensures Closing(start, log, me)
  {
  }

  lemma ClosingHasNoEffects(agent: Agent, before: seq<Event>, log: seq<Event>, from: nat, me: Who)
    requires Closing(before, log, me)
    ensures NoEffects(agent, before, from, me) <==> NoEffects(agent, log, from, me)
    ensures before <= log
  {
    NoEffectsJoined(agent, before, log, from, me);
  }

  // `marks` delimits the attempts in the history, and every attempt but the
  // last started no tool body with an effect.
  ghost predicate OnlyLastHasEffects(agent: Agent, log: seq<Event>, marks: seq<nat>, me: Who) {
    && |marks| >= 2 && marks[|marks| - 1] == |log|
    && (forall i :: 0 <= i < |marks| - 1 ==> marks[i] <= marks[i + 1])
    && (forall i :: 0 <= i < |marks| - 1 ==> marks[i] <= |log|)
    && forall k :: marks[0] <= k < marks[|marks| - 2] && StartsAs(log[k], me) ==> !HasEffect(agent, log[k].act.request.name)
  }

  lemma OneMark(agent: Agent, log: seq<Event>, marks: seq<nat>, me: Who)
    requires |marks| == 2 && marks[0] <= marks[1] == |log|
    ensures OnlyLastHasEffects(agent, log, marks, me)
  {
  }

  lemma NoEffectsJoined(agent: Agent, before: seq<Event>, log: seq<Event>, from: nat, me: Who)
    requires before <= log
    ensures NoEffects(agent, before, from, me) && NoEffects(agent, log, |before|, me) ==> NoEffects(agent, log, from, me)
    ensures !NoEffects(agent, before, from, me) || (from <= |before| && !NoEffects(agent, log, |before|, me)) ==>
              !NoEffects(agent, log, from, me)
  {
    if k :| from <= k < |before| && StartsAs(before[k], me) && HasEffect(agent, before[k].act.request.name) {
      assert StartsAs(log[k], me);
    }
  }

  lemma QuietHasNoEffects(agent: Agent, before: seq<Event>, log: seq<Event>, from: nat, me: Who)
    requires Quiet(before, log, me)
    ensures NoEffects(agent, before, from, me) <==> NoEffects(agent, log, from, me)
    ensures before <= log && GoesOn(log, |before|, me)
  {
    NoEffectsJoined(agent, before, log, from, me);
  }

  lemma OthersHaveNoEffects(agent: Agent, log: seq<Event>, from: nat, me: Who)
    requires NoneOwn(log, from, me)
    ensures NoEffects(agent, log, from, me)
  {
  }

  lemma BeginningHasNoEffects(agent: Agent, start: seq<Event>, before: seq<Event>, log: seq<Event>, me: Who, e: Event)
    requires start <= before && NoneOwn(before, |start|, me) && e.Begun? && log == before + [e]
    ensures start <= log && NoEffects(agent, log, |start|, me)
  {
  }

  lemma QuietAlone(agent: Agent, before: seq<Event>, log: seq<Event>, me: Who)
    requires Quiet(before, log, me)
    ensures before <= log && NoEffects(agent, log, |before|, me) && GoesOn(log, |before|, me)
  {
  }

  lemma GoesOnJoined(before: seq<Event>, log: seq<Event>, from: nat, me: Who)
    requires before <= log && GoesOn(before, from, me) && GoesOn(log, |before|, me)
    ensures GoesOn(log, from, me)
  {
  }

  lemma NothingYet(agent: Agent, log: seq<Event>, me: Who)
    ensures NoEffects(agent, log, |log|, me) && GoesOn(log, |log|, me)
  {
  }

  lemma OneMore(agent: Agent, before: seq<Event>, log: seq<Event>, marks: seq<nat>, me: Who)
    requires OnlyLastHasEffects(agent, before, marks, me) && NoEffects(agent, before, marks[0], me)
    requires before <= log
    ensures OnlyLastHasEffects(agent, log, marks + [|log|], me)
  {
    var marks' := marks + [|log|];
    assert marks'[|marks'| - 2] == |before|;
  }

  // ---------------------------------------------------------------------
  // The attempts of one invocation
  // ---------------------------------------------------------------------

  // Attempt a ran from marks[a] to marks[a + 1].
  ghost predicate IsAttempt(log: seq<Event>, marks: seq<nat>, a: nat, me: Who, request: Request)
    requires a + 1 < |marks|
  {
    marks[a] <= marks[a + 1] <= |log| && Single(log[..marks[a + 1]], marks[a], me, request)
  }

  // `marks` delimits the attempts that the invocation made.
  ghost predicate Attempts(log: seq<Event>, marks: seq<nat>, me: Who, request: Request) {
    && |marks| >= 1 && marks[0] <= marks[|marks| - 1] == |log|
    && forall a: nat :: a + 1 < |marks| ==> IsAttempt(log, marks, a, me, request)
  }

  lemma NoAttempt(log: seq<Event>, me: Who, request: Request)
    ensures Attempts(log, [|log|], me, request)
  {
  }

  lemma OneAttemptMore(before: seq<Event>, log: seq<Event>, marks: seq<nat>, me: Who, request: Request)
    requires Attempts(before, marks, me, request) && before <= log && Single(log, |before|, me, request)
    ensures Attempts(log, marks + [|log|], me, request)
  {
    var marks' := marks + [|log|];
    hide Single;
    assert log[..|log|] == log;
    forall a: nat | a + 1 < |marks'|
      ensures IsAttempt(log, marks', a, me, request)
    {
      if a + 1 < |marks| {
        assert IsAttempt(before, marks, a, me, request);
        assert log[..marks[a + 1]] == before[..marks[a + 1]];
      }
    }
  }

  // Event k belongs to attempt a.
  predicate During(marks: seq<nat>, a: nat, k: nat) {
    a + 1 < |marks| && marks[a] <= k < marks[a + 1]
  }

  lemma {:induction false} DuringSome(log: seq<Event>, marks: seq<nat>, me: Who, request: Request, n: nat, k: nat) returns (a: nat)
    requires Attempts(log, marks, me, request) && n < |marks| && marks[0] <= k < marks[n]
    ensures a < n && During(marks, a, k)
  {
    hide Single;
    if marks[n - 1] <= k {
      a := n - 1;
    } else {
      a := DuringSome(log, marks, me, request, n - 1, k);
    }
  }

  // Attempt a stored its turn.
  ghost predicate StoredBy(log: seq<Event>, marks: seq<nat>, a: nat, me: Who) {
    exists k :: 0 <= k < |log| && During(marks, a, k) && Stores(log[k], me)
  }

  lemma StoresAtMostOnceEach(log: seq<Event>, marks: seq<nat>, me: Who, request: Request, a: nat, i: nat, j: nat)
    requires Attempts(log, marks, me, request) && During(marks, a, i) && During(marks, a, j)
    requires i < |log| && j < |log| && Stores(log[i], me) && Stores(log[j], me)
    ensures i == j
  {
    assert IsAttempt(log, marks, a, me, request);
    var part := log[..marks[a + 1]];
    assert part[i] == log[i] && part[j] == log[j];
  }

  // No attempt stored its turn after an earlier one had.
  ghost predicate OneAttemptStores(log: seq<Event>, marks: seq<nat>, me: Who) {
    forall a, b :: 0 <= a < b < |marks| - 1 ==> !(StoredBy(log, marks, a, me) && StoredBy(log, marks, b, me))
  }

  // The turn is stored at most once exactly when at most one attempt stored
  // it: an attempt that fails after it stored the turn, and is retried, stores
  // it again if the retry gets that far.
  lemma TurnStoredOnceExactly(log: seq<Event>, marks: seq<nat>, me: Who, request: Request)
    requires Attempts(log, marks, me, request)
    ensures StoresAtMostOnce(log, marks[0], me) <==> OneAttemptStores(log, marks, me)
  {
    if a, b :| 0 <= a < b < |marks| - 1 && StoredBy(log, marks, a, me) && StoredBy(log, marks, b, me) {
      var i :| 0 <= i < |log| && During(marks, a, i) && Stores(log[i], me);
      var j :| 0 <= j < |log| && During(marks, b, j) && Stores(log[j], me);
      Apart(log, marks, me, request, a + 1, b);
      Apart(log, marks, me, request, 0, a);
      assert marks[0] <= i < j;
    } else {
      forall i, j | marks[0] <= i < |log| && marks[0] <= j < |log| && Stores(log[i], me) && Stores(log[j], me)
        ensures i == j
      {
        var a := DuringSome(log, marks, me, request, |marks| - 1, i);
        var b := DuringSome(log, marks, me, request, |marks| - 1, j);
        assert StoredBy(log, marks, a, me) && StoredBy(log, marks, b, me);
        StoresAtMostOnceEach(log, marks, me, request, a, i, if a == b then j else i);
      }
    }
  }

  // When the last attempt stored the turn, nothing may have been stored before.
  lemma LastStoresExactly(log: seq<Event>, marks: seq<nat>, me: Who, request: Request)
    requires Attempts(log, marks, me, request) && |marks| >= 2 && StoredBy(log, marks, |marks| - 2, me)
    ensures StoresAtMostOnce(log, marks[0], me) <==> StoresNothing(log, marks[0], marks[|marks| - 2], me)
  {
    var last := |marks| - 2;
    var i :| 0 <= i < |log| && During(marks, last, i) && Stores(log[i], me);
    Apart(log, marks, me, request, 0, last);
    forall j | marks[last] <= j < |log| && Stores(log[j], me)
      ensures i == j
    {
      StoresAtMostOnceEach(log, marks, me, request, last, i, j);
    }
  }

  lemma {:induction false} Apart(log: seq<Event>, marks: seq<nat>, me: Who, request: Request, a: nat, b: nat)
    requires Attempts(log, marks, me, request) && a <= b < |marks|
    ensures marks[a] <= marks[b]
  {
    hide Single;
    if a < b {
      Apart(log, marks, me, request, a, b - 1);
      assert IsAttempt(log, marks, b - 1, me, request);
    }
  }

  lemma AsAskedThroughout(log: seq<Event>, marks: seq<nat>, me: Who, request: Request)
    requires Attempts(log, marks, me, request)
    ensures BeginsAsAsked(log, marks[0], me, request)
  {
    forall k | marks[0] <= k < |log| && Begins(log[k], me)
      ensures AskedFor(request, log[k].origin)
    {
      var a := DuringSome(log, marks, me, request, |marks| - 1, k);
      assert IsAttempt(log, marks, a, me, request);
      assert log[..marks[a + 1]][k] == log[k];
    }
  }

  // The invocation consumed an approval, a pause was stored under the same id,
  // and the invocation began once more.
  ghost predicate PausedAgain(log: seq<Event>, from: nat, me: Who, id: Id) {
    exists i, p, j :: from <= i < p < j < |log| && Begins(log[i], me) && Pauses(log[p], id) && Begins(log[j], me)
  }

  // What is consumed after an earlier consumption under the same id was stored
  // in between.
  lemma ConsumedAgain(agent: Agent, log: seq<Event>, i: nat, j: nat, id: Id) returns (p: nat)
    requires Accepted(agent, log) && i < j < |log| && Consumes(log[i], id) && Consumes(log[j], id)
    ensures i < p < j && log[p].By? && log[p].act == Paused(id, log[j].origin.approval)
  {
    var before := log[..j];
    StepAt(agent, log, j);
    AcceptedIsKept(agent, before);
    hide *;
    ConsumesStored(agent, Replay(agent, before), log[j], id);
    p := StoredSince(agent, before, id);
    AfterTouch(before, p, i, id, log[j].origin.approval);
  }

  lemma AfterTouch(log: seq<Event>, p: nat, i: nat, id: Id, approval: Approval)
    requires StoredAt(log, p, id, approval) && i < |log| && Consumes(log[i], id)
    ensures i < p < |log| && log[p].By? && log[p].act == Paused(id, approval)
  {
    assert Touches(log[i], id);
  }

  lemma ConsumesStored(agent: Agent, l: Ledger, e: Event, id: Id)
    requires Kept(agent, l) && Allowed(agent, l, e) && Consumes(e, id)
    ensures e.Begun? && e.origin.FromApproval?
    ensures id in l.approvals && l.approvals[id].Owned? && l.approvals[id].record == e.origin.approval
  {
    assert ApprovalKept(agent, l, l.approvals[id]);
  }

  lemma PendingStep(agent: Agent, l: Ledger, e: Event, id: Id)
    requires Kept(agent, l) && Allowed(agent, l, e)
    ensures Pauses(e, id) ==> Pending(Apply(agent, l, e), id)
    ensures !Touches(e, id) ==> (Pending(Apply(agent, l, e), id) <==> Pending(l, id))
  {
    hide Kept, MayAct, CheckpointsAfter, ChainsAfter, AttemptsAfter, GrantsAfter, StartsAfter;
  }

  // A pause stored since event i that nothing has touched.
  ghost predicate PausedSince(log: seq<Event>, i: nat, id: Id) {
    exists p :: i < p < |log| && Pauses(log[p], id) && forall k :: p < k < |log| ==> !Touches(log[k], id)
  }

  // The guard of a retry: after a consumption the id is pending again exactly
  // when a pause was stored under it since and is still there.
  lemma {:induction false} PendingAgainExactly(agent: Agent, log: seq<Event>, i: nat, id: Id)
    requires Accepted(agent, log) && i < |log| && Consumes(log[i], id)
    ensures Pending(Replay(agent, log), id) <==> PausedSince(log, i, id)
    decreases |log|
  {
    var n := |log| - 1;
    var before := log[..n];
    LastStep(agent, log);
    AcceptedIsKept(agent, before);
    hide *;
    PendingStep(agent, Replay(agent, before), log[n], id);
    if i < n && !Touches(log[n], id) {
      PendingAgainExactly(agent, before, i, id);
      PausedSinceLonger(log, i, id);
    } else if Pending(Replay(agent, log), id) {
      var p := PendingSince(agent, log, id);
      AfterTouch(log, p, i, id, Replay(agent, log).approvals[id].record);
      ShowsPause(log, p, i, id, Replay(agent, log).approvals[id].record);
    } else {
      LastTouch(log, i, id);
    }
  }

  lemma PendingSince(agent: Agent, log: seq<Event>, id: Id) returns (p: nat)
    requires Accepted(agent, log) && Pending(Replay(agent, log), id)
    ensures id in Replay(agent, log).approvals && StoredAt(log, p, id, Replay(agent, log).approvals[id].record)
  {
    p := StoredSince(agent, log, id);
  }

  lemma ShowsPause(log: seq<Event>, p: nat, i: nat, id: Id, approval: Approval)
    requires StoredAt(log, p, id, approval) && i < p < |log|
    ensures PausedSince(log, i, id)
  {
    assert Pauses(log[p], id);
  }

  // What is not a pause but touches the id leaves no pause untouched.
  lemma LastTouch(log: seq<Event>, i: nat, id: Id)
    requires i < |log| && (i == |log| - 1 || (Touches(log[|log| - 1], id) && !Pauses(log[|log| - 1], id)))
    ensures !PausedSince(log, i, id)
  {
  }

  lemma PausedSinceLonger(log: seq<Event>, i: nat, id: Id)
    requires i < |log| - 1 && !Touches(log[|log| - 1], id)
    ensures PausedSince(log, i, id) <==> PausedSince(log[..|log| - 1], i, id)
  {
    var before := log[..|log| - 1];
    assert forall k :: 0 <= k < |before| ==> before[k] == log[k];
    assert !Pauses(log[|log| - 1], id);
    if PausedSince(before, i, id) {
      var p :| i < p < |before| && Pauses(before[p], id) && forall k :: p < k < |before| ==> !Touches(before[k], id);
      assert Pauses(log[p], id);
    }
    if PausedSince(log, i, id) {
      var p :| i < p < |log| && Pauses(log[p], id) && forall k :: p < k < |log| ==> !Touches(log[k], id);
      assert Pauses(before[p], id);
    }
  }

  // A continuation applies its decision to one stored pause only, exactly when
  // no retry begins after an earlier attempt has consumed the approval and a
  // pause was stored under its id again.
  lemma DecidesOnceExactly(agent: Agent, log: seq<Event>, marks: seq<nat>, me: Who, request: Request)
    requires Accepted(agent, log) && Attempts(log, marks, me, request) && request.Continue?
    ensures forall k :: marks[0] <= k < |log| && Begins(log[k], me) ==>
                          Consumes(log[k], request.continuationId) && log[k].origin.decision == request.decision
    ensures BeginsAtMostOnce(log, marks[0], me) <==> !PausedAgain(log, marks[0], me, request.continuationId)
  {
    AsAskedThroughout(log, marks, me, request);
    var id := request.continuationId;
    hide Accepted, Attempts, Pauses;
    forall i, j | marks[0] <= i < j < |log| && Begins(log[i], me) && Begins(log[j], me)
      ensures PausedAgain(log, marks[0], me, id)
    {
      var p := ConsumedAgain(agent, log, i, j, id);
      assert Pauses(log[p], id) by { PausesHere(log[p], id, log[j].origin.approval); }
    }
  }

  lemma PausesHere(e: Event, id: Id, approval: Approval)
    requires e.By? && e.act == Paused(id, approval)
    ensures Pauses(e, id)
  {
  }
}
