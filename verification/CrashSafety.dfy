// Resuming never repeats a side effect as long as no checkpoint is resumed
// while an attempt on its chain is still running, and only then.
module CrashSafety {
  import opened Wrappers
  import opened AgentModel
  import opened ReplayLedger

  // Record `id` could resume chain `c`.
  ghost predicate Resumes<T>(records: map<Id, Owned<T>>, id: Id, c: nat) {
    id in records && records[id].Owned? && records[id].chain == c
  }

  // A running attempt works on chain `c`.
  ghost predicate Busy(l: Ledger, who: Who, c: nat) {
    who in l.attempts && l.attempts[who].chain == c
  }

  ghost predicate Overlaps(l: Ledger, e: Event) {
    && e.Begun? && e.origin.FromCheckpoint?
    && exists c, who :: Resumes(l.checkpoints, e.origin.id, c) && Busy(l, who, c)
  }

  // No checkpoint was ever resumed beside an attempt still running on its chain.
  ghost predicate Exclusive(agent: Agent, log: seq<Event>) {
    log == [] ||
    (Exclusive(agent, log[..|log| - 1]) && !Overlaps(Replay(agent, log[..|log| - 1]), log[|log| - 1]))
  }

  // Everything begun for a chain is accounted for by whoever could go on with
  // it.
  ghost predicate Accounted(l: Ledger, chain: nat, v: View) {
    chain < |l.chains| && v.begun == l.chains[chain].started
  }

  ghost predicate AllAccounted(l: Ledger) {
    && (forall who <- l.attempts :: Accounted(l, l.attempts[who].chain, l.attempts[who].view))
    && (forall id <- l.checkpoints :: l.checkpoints[id].Owned? ==>
          Accounted(l, l.checkpoints[id].chain, l.checkpoints[id].view))
    && (forall id <- l.approvals :: l.approvals[id].Owned? ==>
          Accounted(l, l.approvals[id].chain, l.approvals[id].view))
  }

  // A chain has one running attempt, or one record that could resume it, or
  // both, the record being the attempt's own.
  ghost predicate OneWay(l: Ledger, c: nat) {
    && (forall w1, w2 :: Busy(l, w1, c) && Busy(l, w2, c) ==> w1 == w2)
    && (forall i, j :: Resumes(l.checkpoints, i, c) && Resumes(l.checkpoints, j, c) ==> i == j)
    && (forall i, j :: Resumes(l.approvals, i, c) && Resumes(l.approvals, j, c) ==> i == j)
    && (forall i, j :: Resumes(l.checkpoints, i, c) ==> !Resumes(l.approvals, j, c))
    && (forall i, w :: Resumes(l.approvals, i, c) ==> !Busy(l, w, c))
    && (forall i, w :: Resumes(l.checkpoints, i, c) && Busy(l, w, c) ==> i == l.attempts[w].cid && l.attempts[w].exposed)
  }

  ghost predicate Covered(l: Ledger) {
    AllAccounted(l) && forall c: nat :: OneWay(l, c)
  }

  // ---------------------------------------------------------------------
  // Every step keeps it
  // ---------------------------------------------------------------------

  // Where nothing that bears on chain `c` was added it stays as it was.
  lemma OneWayKept(l: Ledger, l': Ledger, c: nat)
    requires OneWay(l, c)
    requires forall w :: Busy(l', w, c) ==> Busy(l, w, c) && l'.attempts[w].cid == l.attempts[w].cid && l'.attempts[w].exposed == l.attempts[w].exposed
    requires forall i :: Resumes(l'.checkpoints, i, c) ==> Resumes(l.checkpoints, i, c)
    requires forall i :: Resumes(l'.approvals, i, c) ==> Resumes(l.approvals, i, c)
    ensures OneWay(l', c)
  {
    hide Resumes, Busy;
  }

  // A chain that one attempt works on, with at most its own record stored.
  lemma RunningOneWay(l: Ledger, c: nat, who: Who)
    requires forall w :: Busy(l, w, c) ==> w == who
    requires forall i :: !Resumes(l.approvals, i, c)
    requires forall i :: Resumes(l.checkpoints, i, c) ==> who in l.attempts && i == l.attempts[who].cid && l.attempts[who].exposed
    ensures OneWay(l, c)
  {
    hide Resumes, Busy;
  }

  // A chain that waits for a caller's decision.
  lemma PausedOneWay(l: Ledger, c: nat, id: Id)
    requires forall w :: !Busy(l, w, c)
    requires forall i :: !Resumes(l.checkpoints, i, c)
    requires forall i :: Resumes(l.approvals, i, c) ==> i == id
    ensures OneWay(l, c)
  {
    hide Resumes, Busy;
  }

  // What one attempt on a chain excludes.
  lemma BusyExcludes(l: Ledger, c: nat, who: Who)
    requires OneWay(l, c) && Busy(l, who, c)
    ensures forall w :: Busy(l, w, c) ==> w == who
    ensures forall i :: !Resumes(l.approvals, i, c)
    ensures forall i :: Resumes(l.checkpoints, i, c) ==> i == l.attempts[who].cid && l.attempts[who].exposed
  {
    hide Resumes;
  }

  lemma BegunOneWay(agent: Agent, l: Ledger, e: Event, c: nat)
    requires Kept(agent, l) && Covered(l) && Allowed(agent, l, e) && e.Begun? && !Overlaps(l, e)
    ensures OneWay(Apply(agent, l, e), c)
  {
    BegunIsKept(agent, l, e);
    var l' := Apply(agent, l, e);
    var a := Begin(l, e.cid, e.origin).value;
    assert OneWay(l, c);
    BegunChanges(agent, l, e, c);
    if a.chain != c {
      hide *;
      OneWayKept(l, l', c);
    } else {
      NothingElseOn(agent, l, e, c);
      hide *;
      assert forall i :: !Resumes(l'.approvals, i, c);
      assert forall w :: Busy(l', w, c) ==> w == e.who;
      RunningOneWay(l', c, e.who);
    }
  }

  lemma BegunChanges(agent: Agent, l: Ledger, e: Event, c: nat)
    requires Allowed(agent, l, e) && e.Begun? && Begin(l, e.cid, e.origin).Some?
    ensures var l' := Apply(agent, l, e);
            var a := Begin(l, e.cid, e.origin).value;
            && e.who in l'.attempts && l'.attempts[e.who] == a
            && (forall i :: Resumes(l'.checkpoints, i, c) ==> Resumes(l.checkpoints, i, c))
            && (forall i :: Resumes(l'.approvals, i, c) ==> Resumes(l.approvals, i, c) && !(e.origin.FromApproval? && i == e.origin.id))
            && (forall w :: Busy(l', w, c) && w != e.who ==> Busy(l, w, c) && l'.attempts[w] == l.attempts[w])
            && (Busy(l', e.who, c) <==> a.chain == c)
            && (e.origin.FromCheckpoint? ==> a.exposed && a.cid == e.cid)
  {
    hide AllowedBegin;
  }

  // The chain a new attempt goes on with has no other attempt, and its record
  // is the one the attempt took over.
  lemma NothingElseOn(agent: Agent, l: Ledger, e: Event, c: nat)
    requires Kept(agent, l) && Covered(l) && Allowed(agent, l, e) && e.Begun? && !Overlaps(l, e)
    requires Begin(l, e.cid, e.origin).Some? && Begin(l, e.cid, e.origin).value.chain == c
    ensures forall w :: !Busy(l, w, c)
    ensures forall i :: Resumes(l.approvals, i, c) ==> e.origin.FromApproval? && i == e.origin.id
    ensures forall i :: Resumes(l.checkpoints, i, c) ==> e.origin.FromCheckpoint? && i == e.cid
  {
    assert OneWay(l, c);
    match e.origin
    case FromRequest(_) =>
      assert forall w :: w in l.attempts ==> AttemptKept(agent, l, l.attempts[w]);
      assert forall i :: i in l.checkpoints ==> CheckpointKept(agent, l, l.checkpoints[i]);
      assert forall i :: i in l.approvals ==> ApprovalKept(agent, l, l.approvals[i]);
    case FromCheckpoint(id, _) =>
      assert Resumes(l.checkpoints, id, c);
    case FromApproval(id, _, _) =>
      assert Resumes(l.approvals, id, c);
  }

  lemma ActedOneWay(agent: Agent, l: Ledger, e: Event, c: nat)
    requires Covered(l) && Allowed(agent, l, e) && e.By?
    ensures OneWay(Apply(agent, l, e), c)
  {
    var l' := Apply(agent, l, e);
    var a := l.attempts[e.who];
    assert OneWay(l, c);
    ActedChanges(agent, l, e, c);
    if a.chain != c {
      hide *;
      OneWayKept(l, l', c);
    } else {
      assert Busy(l, e.who, c);
      hide *;
      BusyExcludes(l, c, e.who);
      if e.act.Paused? {
        assert forall i :: !Resumes(l'.checkpoints, i, c);
        assert forall w :: !Busy(l', w, c);
        PausedOneWay(l', c, e.act.id);
      } else if e.act.Saved? || e.act.Deleted? {
        assert forall i :: !Resumes(l'.approvals, i, c);
        assert Busy(l', e.who, c);
        RunningOneWay(l', c, e.who);
      } else {
        OneWayKept(l, l', c);
      }
    }
  }

  // What an action does to the records of chain `c` and to who runs on it.
  lemma ActedChanges(agent: Agent, l: Ledger, e: Event, c: nat)
    requires Allowed(agent, l, e) && e.By?
    ensures var l' := Apply(agent, l, e);
            var a := l.attempts[e.who];
            && (forall w :: Busy(l', w, c) ==> Busy(l, w, c))
            && (forall w :: Busy(l', w, c) && w != e.who ==> l'.attempts[w] == l.attempts[w])
            && (a.chain == c && !Ends(e.act) ==> Busy(l', e.who, c))
            && (Busy(l', e.who, c) ==> !e.act.Paused? && l'.attempts[e.who].cid == a.cid)
            && (Busy(l', e.who, c) ==>
                  l'.attempts[e.who].exposed == if e.act.Saved? then true else if e.act.Deleted? then false else a.exposed)
            && (forall i :: Resumes(l'.checkpoints, i, c) ==>
                  Resumes(l.checkpoints, i, c) || (e.act.Saved? && i == a.cid && a.chain == c))
            && (forall i :: Resumes(l'.checkpoints, i, c) ==> !((e.act.Deleted? || e.act.Paused?) && i == a.cid))
            && (forall i :: Resumes(l'.approvals, i, c) ==>
                  (Resumes(l.approvals, i, c) && !(e.act.Paused? && i == e.act.id)) || (e.act.Paused? && i == e.act.id && a.chain == c))
  {
    hide MayAct, Effects, ChainsAfter, GrantsAfter, StartsAfter;
  }

  lemma OutsideOneWay(agent: Agent, l: Ledger, e: Event, c: nat)
    requires OneWay(l, c) && Allowed(agent, l, e) && !e.Begun? && !e.By?
    ensures OneWay(Apply(agent, l, e), c)
  {
    OneWayKept(l, Apply(agent, l, e), c);
  }

  // An action leaves a chain accounted for unless it begins a body for it.
  lemma AccountedStep(agent: Agent, l: Ledger, e: Event, chain: nat, v: View)
    requires Accounted(l, chain, v)
    requires e.By? && e.who in l.attempts && Effects(agent, e.act) != [] ==> l.attempts[e.who].chain != chain
    ensures Accounted(Apply(agent, l, e), chain, v)
  {
    hide Effects;
    if e.By? && e.who in l.attempts && Effects(agent, e.act) == [] {
      assert forall s: seq<Call> :: s + Effects(agent, e.act) == s;
    }
  }

  // Who begins a body has taken its record out of the store before.
  lemma NobodyElse(agent: Agent, l: Ledger, e: Event, c: nat)
    requires Covered(l) && Allowed(agent, l, e) && e.By? && Effects(agent, e.act) != [] && l.attempts[e.who].chain == c
    ensures forall w :: Busy(l, w, c) ==> w == e.who
    ensures forall i :: !Resumes(l.checkpoints, i, c)
    ensures forall i :: !Resumes(l.approvals, i, c)
  {
    assert OneWay(l, c) && Busy(l, e.who, c);
    BusyExcludes(l, c, e.who);
  }

  lemma MoverAccounted(agent: Agent, l: Ledger, e: Event)
    requires AllAccounted(l) && Allowed(agent, l, e) && e.By? && !Ends(e.act)
    ensures var a' := Moved(agent, l.attempts[e.who], e.act); Accounted(Apply(agent, l, e), a'.chain, a'.view)
  {
    hide AllowedStart, Effects, Moved, CheckpointsAfter, ApprovalsAfter, AttemptsAfter, GrantsAfter, StartsAfter;
    assert Accounted(l, l.attempts[e.who].chain, l.attempts[e.who].view);
    ViewMoves(agent, l.attempts[e.who], e.act);
  }

  lemma ViewMoves(agent: Agent, a: Attempt, act: Act)
    ensures Moved(agent, a, act).chain == a.chain
    ensures Moved(agent, a, act).view.begun == a.view.begun + Effects(agent, act)
  {
    hide HasEffect;
    assert a.view.begun + [] == a.view.begun;
  }

  lemma AttemptsAccounted(agent: Agent, l: Ledger, e: Event)
    requires Kept(agent, l) && Covered(l) && Allowed(agent, l, e)
    ensures var l' := Apply(agent, l, e);
            forall who <- l'.attempts :: Accounted(l', l'.attempts[who].chain, l'.attempts[who].view)
  {
    var l' := Apply(agent, l, e);
    forall who | who in l'.attempts
      ensures Accounted(l', l'.attempts[who].chain, l'.attempts[who].view)
    {
      AttemptsStep(agent, l, e, who);
      if e.Begun? && e.who == who {
        BegunAccounted(agent, l, e);
      } else if e.By? && e.who == who {
        MoverAccounted(agent, l, e);
      } else {
        assert Accounted(l, l.attempts[who].chain, l.attempts[who].view);
        if e.By? && Effects(agent, e.act) != [] {
          NobodyElse(agent, l, e, l.attempts[e.who].chain);
          assert !Busy(l, who, l.attempts[e.who].chain);
        }
        AccountedStep(agent, l, e, l.attempts[who].chain, l.attempts[who].view);
      }
      hide Apply, Allowed, Kept, Effects, Moved, Begin;
    }
  }

  lemma BegunAccounted(agent: Agent, l: Ledger, e: Event)
    requires Kept(agent, l) && AllAccounted(l) && Allowed(agent, l, e) && e.Begun?
    ensures var begun := Begin(l, e.cid, e.origin);
            begun.Some? && Accounted(Apply(agent, l, e), begun.value.chain, begun.value.view)
  {
    BegunIsKept(agent, l, e);
  }

  lemma RecordsAccounted(agent: Agent, l: Ledger, e: Event)
    requires Kept(agent, l) && Covered(l) && Allowed(agent, l, e)
    ensures var l' := Apply(agent, l, e);
            && (forall id <- l'.checkpoints :: l'.checkpoints[id].Owned? ==>
                  Accounted(l', l'.checkpoints[id].chain, l'.checkpoints[id].view))
            && (forall id <- l'.approvals :: l'.approvals[id].Owned? ==>
                  Accounted(l', l'.approvals[id].chain, l'.approvals[id].view))
  {
    var l' := Apply(agent, l, e);
    forall id | id in l'.checkpoints && l'.checkpoints[id].Owned?
      ensures Accounted(l', l'.checkpoints[id].chain, l'.checkpoints[id].view)
    {
      hide Kept, AllowedStart, Effects, ApprovalsAfter, ChainsAfter, AttemptsAfter, GrantsAfter, StartsAfter, Accounted;
      var o := l'.checkpoints[id];
      if id in l.checkpoints && l.checkpoints[id] == o {
        if e.By? && Effects(agent, e.act) != [] {
          NobodyElse(agent, l, e, l.attempts[e.who].chain);
          assert !Resumes(l.checkpoints, id, l.attempts[e.who].chain);
        }
      } else {
        assert e.By? && e.act.Saved?;
        assert Effects(agent, e.act) == [] by { SavingBeginsNothing(agent, e.act); }
        assert Accounted(l, l.attempts[e.who].chain, l.attempts[e.who].view);
      }
      AccountedStep(agent, l, e, o.chain, o.view);
    }
    forall id | id in l'.approvals && l'.approvals[id].Owned?
      ensures Accounted(l', l'.approvals[id].chain, l'.approvals[id].view)
    {
      hide Kept, AllowedStart, Effects, CheckpointsAfter, ChainsAfter, AttemptsAfter, GrantsAfter, StartsAfter, Accounted;
      var o := l'.approvals[id];
      if id in l.approvals && l.approvals[id] == o {
        if e.By? && Effects(agent, e.act) != [] {
          NobodyElse(agent, l, e, l.attempts[e.who].chain);
          assert !Resumes(l.approvals, id, l.attempts[e.who].chain);
        }
      } else {
        assert e.By? && e.act.Paused?;
        assert Effects(agent, e.act) == [] by { SavingBeginsNothing(agent, e.act); }
        assert Accounted(l, l.attempts[e.who].chain, l.attempts[e.who].view);
      }
      AccountedStep(agent, l, e, o.chain, o.view);
    }
  }

  lemma SavingBeginsNothing(agent: Agent, act: Act)
    requires act.Saved? || act.Paused?
    ensures Effects(agent, act) == []
  {
  }

  lemma StepCovers(agent: Agent, l: Ledger, e: Event)
    requires Kept(agent, l) && Covered(l) && Allowed(agent, l, e) && !Overlaps(l, e)
    ensures Covered(Apply(agent, l, e))
  {
    AttemptsAccounted(agent, l, e);
    RecordsAccounted(agent, l, e);
    forall c: nat
      ensures OneWay(Apply(agent, l, e), c)
    {
      if e.Begun? {
        BegunOneWay(agent, l, e, c);
      } else if e.By? {
        ActedOneWay(agent, l, e, c);
      } else {
        assert OneWay(l, c);
        OutsideOneWay(agent, l, e, c);
      }
    }
    hide Apply, Accounted, OneWay;
  }

  lemma {:induction false} ExclusiveIsCovered(agent: Agent, log: seq<Event>)
    requires Accepted(agent, log) && Exclusive(agent, log)
    ensures Covered(Replay(agent, log))
  {
    if log != [] {
      hide Covered, Apply, Allowed, Overlaps, Kept;
      var before := log[..|log| - 1];
      LastStep(agent, log);
      ExclusiveIsCovered(agent, before);
      AcceptedIsKept(agent, before);
      StepCovers(agent, Replay(agent, before), log[|log| - 1]);
    } else {
      hide Overlaps;
    }
  }

  // ---------------------------------------------------------------------
  // Crash safety
  // ---------------------------------------------------------------------

  // Everything stored that this agent could resume accounts for every
  // non-read-only tool body its chain has begun, and nothing else could resume
  // that chain.
  ghost predicate CrashSafe(agent: Agent, l: Ledger) {
    && (forall id <- l.checkpoints :: l.checkpoints[id].record.agentId == agent.id ==>
          && l.checkpoints[id].Owned? && l.checkpoints[id].chain < |l.chains|
          && EffectCalls(l.checkpoints[id].record.results) == l.chains[l.checkpoints[id].chain].started)
    && (forall id <- l.approvals :: l.approvals[id].record.agentId == agent.id ==>
          && l.approvals[id].Owned? && l.approvals[id].chain < |l.chains|
          && EffectCalls(l.approvals[id].record.results) == l.chains[l.approvals[id].chain].started)
  }

  lemma CoveredIsSafe(agent: Agent, l: Ledger)
    requires Kept(agent, l) && Covered(l)
    ensures CrashSafe(agent, l)
  {
    hide Shaped, Dangling, OneWay;
    forall id | id in l.checkpoints
      ensures CheckpointKept(agent, l, l.checkpoints[id])
    {
    }
    forall id | id in l.approvals
      ensures ApprovalKept(agent, l, l.approvals[id])
    {
    }
  }

  // At every point of every history of any number of attempts, wherever a crash
  // cuts it: no side effect is repeated by resuming, if no checkpoint was ever
  // resumed beside an attempt still running on its chain.
  lemma CrashSafeReplay(agent: Agent, log: seq<Event>, crash: nat)
    requires Accepted(agent, log) && Exclusive(agent, log) && crash <= |log|
    ensures CrashSafe(agent, Replay(agent, log[..crash]))
    ensures forall c: nat :: OneWay(Replay(agent, log[..crash]), c)
  {
    PrefixAccepted(agent, log, crash);
    PrefixExclusive(agent, log, crash);
    AcceptedIsKept(agent, log[..crash]);
    ExclusiveIsCovered(agent, log[..crash]);
    CoveredIsSafe(agent, Replay(agent, log[..crash]));
  }

  lemma {:induction false} PrefixExclusive(agent: Agent, log: seq<Event>, i: nat)
    requires Exclusive(agent, log) && i <= |log|
    ensures Exclusive(agent, log[..i])
    decreases |log|
  {
    if i < |log| {
      hide Overlaps;
      PrefixExclusive(agent, log[..|log| - 1], i);
      assert log[..|log| - 1][..i] == log[..i];
    } else {
      assert log[..i] == log;
    }
  }

  ghost predicate NoOverlapSince(agent: Agent, log: seq<Event>, from: nat) {
    forall k :: from <= k < |log| ==> !Overlaps(Replay(agent, log[..k]), log[k])
  }

  // Whatever happens from here on, short of resuming a checkpoint beside an
  // attempt on its chain, every record stays safe to resume.
  ghost predicate SafeFrom(agent: Agent, log: seq<Event>) {
    forall later :: log <= later && Accepted(agent, later) && NoOverlapSince(agent, later, |log|) ==>
      CrashSafe(agent, Replay(agent, later))
  }

  lemma {:induction false} CoveredSince(agent: Agent, log: seq<Event>, from: nat)
    requires from <= |log| && Accepted(agent, log) && Covered(Replay(agent, log[..from])) && NoOverlapSince(agent, log, from)
    ensures Covered(Replay(agent, log))
    decreases |log|
  {
    if from == |log| {
      assert log[..from] == log;
    } else {
      var n := |log| - 1;
      var before := log[..n];
      assert before[..from] == log[..from];
      assert !Overlaps(Replay(agent, log[..n]), log[n]);
      OverlapShorter(agent, log, from);
      LastStep(agent, log);
      hide *;
      CoveredSince(agent, before, from);
      AcceptedIsKept(agent, before);
      StepCovers(agent, Replay(agent, before), log[n]);
    }
  }

  lemma OverlapShorter(agent: Agent, log: seq<Event>, from: nat)
    requires from < |log| && NoOverlapSince(agent, log, from)
    ensures NoOverlapSince(agent, log[..|log| - 1], from)
  {
    hide Overlaps, Replay;
    var before := log[..|log| - 1];
    forall k | from <= k < |before|
      ensures !Overlaps(Replay(agent, before[..k]), before[k])
    {
      assert before[..k] == log[..k];
    }
  }

  // The attempt `first` still runs on the chain of checkpoint `id` when `second`
  // resumes it. First goes on to a tool while second saves the transcript it
  // resumed: the record stored then misses the body begun.
  function Interleaving(first: Who, second: Who, record: Checkpoint, request: ToolRequest): seq<Event> {
    [By(first, ModelCalled), By(first, Deleted), By(first, Started(request, 0)), By(second, Saved(record))]
  }

  // First's part: it calls the model, deletes the record and begins the tool.
  lemma FirstGoesOn(agent: Agent, l: Ledger, first: Who, request: ToolRequest)
    requires first in l.attempts && l.attempts[first].chain < |l.chains|
    requires l.attempts[first].approved.None? && l.attempts[first].iterations + 1 < agent.maxIterations
    requires HasEffect(agent, request.name) && Permitted(agent, request, false) && request.key.None?
    ensures var l1 := Apply(agent, l, By(first, ModelCalled));
            var l2 := Apply(agent, l1, By(first, Deleted));
            var l3 := Apply(agent, l2, By(first, Started(request, 0)));
            && Allowed(agent, l, By(first, ModelCalled)) && Allowed(agent, l1, By(first, Deleted))
            && Allowed(agent, l2, By(first, Started(request, 0)))
            && (forall w :: w != first ==> (w in l3.attempts <==> w in l.attempts))
            && (forall w :: w in l.attempts && w != first ==> l3.attempts[w] == l.attempts[w])
            && var c := l.attempts[first].chain;
               c < |l3.chains| && l3.chains[c].started == l.chains[c].started + [Call(request.name, request.id)]
  {
    hide Permitted, HasEffect;
  }

  lemma InterleavingBreaks(agent: Agent, log: seq<Event>, first: Who, second: Who, record: Checkpoint, request: ToolRequest)
    requires Accepted(agent, log) && agent.checkpointing && first != second
    requires var l := Replay(agent, log);
             && first in l.attempts && second in l.attempts
             && l.attempts[first].chain == l.attempts[second].chain < |l.chains|
             && l.attempts[first].approved.None? && l.attempts[first].iterations + 1 < agent.maxIterations
             && l.attempts[second].approved.None?
             && l.attempts[second].view.begun == l.chains[l.attempts[second].chain].started
             && record.iterations == l.attempts[second].iterations && record.historyTail == l.attempts[second].tail
             && CompleteCheckpoint(agent, l.attempts[second].view, record)
    requires HasEffect(agent, request.name) && Permitted(agent, request, false) && request.key.None?
    ensures var later := log + Interleaving(first, second, record, request);
            && Accepted(agent, later) && !CrashSafe(agent, Replay(agent, later))
            && NoOverlapSince(agent, later, |log|)
  {
    var more := Interleaving(first, second, record, request);
    var l := Replay(agent, log);
    hide Apply, Accepted, Replay, Allowed, MayAct, CrashSafe, CompleteCheckpoint, HasEffect, Permitted, NoOverlapSince;
    FirstGoesOn(agent, l, first, request);
    var l3 := Apply(agent, Apply(agent, Apply(agent, l, more[0]), more[1]), more[2]);
    SecondSaves(agent, l, l3, second, record);
    FourMore(agent, log, more);
    NothingBegins(agent, log, more);
  }

  lemma NothingBegins(agent: Agent, log: seq<Event>, more: seq<Event>)
    requires forall k :: 0 <= k < |more| ==> !more[k].Begun?
    ensures NoOverlapSince(agent, log + more, |log|)
  {
    hide Replay;
  }

  // Second's part: it saves what it resumed from, without the body begun since.
  lemma SecondSaves(agent: Agent, l: Ledger, l3: Ledger, second: Who, record: Checkpoint)
    requires second in l.attempts && second in l3.attempts && l3.attempts[second] == l.attempts[second]
    requires var a := l.attempts[second];
             && agent.checkpointing && a.approved.None? && a.chain < |l3.chains|
             && |l3.chains[a.chain].started| > |a.view.begun|
             && record.iterations == a.iterations && record.historyTail == a.tail
             && CompleteCheckpoint(agent, a.view, record)
    ensures Allowed(agent, l3, By(second, Saved(record)))
    ensures !CrashSafe(agent, Apply(agent, l3, By(second, Saved(record))))
  {
    var a := l3.attempts[second];
    var l4 := Apply(agent, l3, By(second, Saved(record)));
    assert l4.checkpoints[a.cid] == Owned(record, a.chain, a.view);
    assert l4.chains[a.chain].started == l3.chains[a.chain].started + [];
  }

  lemma FourMore(agent: Agent, log: seq<Event>, more: seq<Event>)
    requires |more| == 4
    ensures var l0 := Replay(agent, log);
            var l1 := Apply(agent, l0, more[0]);
            var l2 := Apply(agent, l1, more[1]);
            var l3 := Apply(agent, l2, more[2]);
            && Replay(agent, log + more) == Apply(agent, l3, more[3])
            && (Accepted(agent, log + more) <==>
                  && Accepted(agent, log) && Allowed(agent, l0, more[0]) && Allowed(agent, l1, more[1])
                  && Allowed(agent, l2, more[2]) && Allowed(agent, l3, more[3]))
  {
    var a, b, c := log + more[..1], log + more[..2], log + more[..3];
    assert a == log + [more[0]] && b == a + [more[1]] && c == b + [more[2]] && log + more == c + [more[3]];
    hide *;
    Extend(agent, log, more[0]);
    Extend(agent, a, more[1]);
    Extend(agent, b, more[2]);
    Extend(agent, c, more[3]);
  }

  // Resuming a checkpoint is safe exactly when no attempt still runs on its
  // chain; `busy` attempts are those with an iteration left to run tools in.
  lemma ResumeExactly(agent: Agent, log: seq<Event>, second: Who, id: Id, request: ToolRequest)
    requires Accepted(agent, log) && Exclusive(agent, log)
    requires var l := Replay(agent, log);
             && second !in l.attempts && id in l.checkpoints && l.checkpoints[id].Owned?
             && forall w :: Busy(l, w, l.checkpoints[id].chain) ==> l.attempts[w].iterations + 1 < agent.maxIterations
    requires HasEffect(agent, request.name) && Permitted(agent, request, false) && request.key.None?
    ensures var l := Replay(agent, log);
            SafeFrom(agent, log + [Begun(second, id, FromCheckpoint(id, l.checkpoints[id].record))])
            <==> forall w :: !Busy(l, w, l.checkpoints[id].chain)
  {
    var l := Replay(agent, log);
    var record, c := l.checkpoints[id].record, l.checkpoints[id].chain;
    var e := Begun(second, id, FromCheckpoint(id, record));
    var resumed := log + [e];
    AcceptedIsKept(agent, log);
    ExclusiveIsCovered(agent, log);
    assert CheckpointKept(agent, l, l.checkpoints[id]) && Accounted(l, c, l.checkpoints[id].view);
    Extend(agent, log, e);
    assert Accepted(agent, resumed);
    if exists w :: Busy(l, w, c) {
      var first :| Busy(l, first, c);
      ResumedBeside(agent, l, first, second, id);
      hide *;
      InterleavingBreaks(agent, resumed, first, second, record, request);
      var later := resumed + Interleaving(first, second, record, request);
      assert !SafeFrom(agent, resumed) by { UnsafeLater(agent, resumed, later); }
    } else {
      assert !Overlaps(l, e);
      StepCovers(agent, l, e);
      hide Accepted, Replay, Covered, Kept, Apply, CrashSafe;
      forall later | resumed <= later && Accepted(agent, later) && NoOverlapSince(agent, later, |resumed|)
        ensures CrashSafe(agent, Replay(agent, later))
      {
        assert later[..|resumed|] == resumed;
        CoveredSince(agent, later, |resumed|);
        AcceptedIsKept(agent, later);
        CoveredIsSafe(agent, Replay(agent, later));
      }
    }
  }

  lemma UnsafeLater(agent: Agent, log: seq<Event>, later: seq<Event>)
    requires log <= later && Accepted(agent, later) && NoOverlapSince(agent, later, |log|) && !CrashSafe(agent, Replay(agent, later))
    ensures !SafeFrom(agent, log)
  {
    hide Accepted, NoOverlapSince, CrashSafe, Replay;
  }

  lemma ResumedBeside(agent: Agent, l: Ledger, first: Who, second: Who, id: Id)
    requires Kept(agent, l) && Covered(l) && second !in l.attempts
    requires id in l.checkpoints && l.checkpoints[id].Owned? && Busy(l, first, l.checkpoints[id].chain)
    ensures var record := l.checkpoints[id].record;
            var l' := Apply(agent, l, Begun(second, id, FromCheckpoint(id, record)));
            && agent.checkpointing && first != second && first in l'.attempts && l'.attempts[first] == l.attempts[first]
            && l'.attempts[first].approved.None?
            && second in l'.attempts && l'.chains == l.chains
            && var a := l'.attempts[second];
               && a.approved.None? && a.chain == l.attempts[first].chain < |l.chains|
               && a.view.begun == l.chains[a.chain].started
               && record.iterations == a.iterations && record.historyTail == a.tail
               && CompleteCheckpoint(agent, a.view, record)
  {
    var c := l.checkpoints[id].chain;
    assert OneWay(l, c) && Resumes(l.checkpoints, id, c);
    assert AttemptKept(agent, l, l.attempts[first]) && CheckpointKept(agent, l, l.checkpoints[id]);
    assert Accounted(l, c, l.checkpoints[id].view);
  }
}
