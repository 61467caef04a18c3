// What the next invocation of a session sends to the model: whether the history
// it quotes still has every tool call answered.
module NextRequest {
  import opened Wrappers
  import opened AgentModel
  import opened ReplayLedger
  import opened Runtime
  import opened Turns
  import Wire = AnthropicWire

  function GroupSize(m: Message): nat {
    if m.Assistant? then 1 + |m.calls| else 1
  }

  // A stored history: every assistant message that calls tools is followed by
  // the answers to all its calls, or, cut by the iteration limit, by none.
  predicate Stored(history: seq<Message>, replayed: set<seq<ToolRequest>>)
    decreases |history|
  {
    history == [] ||
    (match history[0]
     case System(_) => false
     case Tool(_, _, _) => false
     case User(_) => Stored(history[1..], replayed)
     case Assistant(_, calls) =>
       if |history| > 1 && history[1].Tool? then
         && |calls| < |history|
         && Answers(calls, history[1..1 + |calls|], replayed)
         && Stored(history[1 + |calls|..], replayed)
       else Stored(history[1..], replayed))
  }

  // How far the first group of a stored history reaches.
  function Reach(history: seq<Message>): nat
    requires history != []
  {
    if history[0].Assistant? && |history| > 1 && history[1].Tool? then 1 + |history[0].calls| else 1
  }

  lemma StoredFirst(history: seq<Message>, replayed: set<seq<ToolRequest>>)
    requires Stored(history, replayed) && history != []
    ensures !history[0].Tool? && !history[0].System?
    ensures 1 <= Reach(history) <= |history| && Stored(history[Reach(history)..], replayed)
    ensures forall i :: 1 <= i < Reach(history) ==> history[i].Tool?
    ensures Reach(history) > 1 ==> history[0].Assistant? && Reach(history) == 1 + |history[0].calls|
    ensures Reach(history) > 1 ==> Answers(history[0].calls, history[1..Reach(history)], replayed)
    ensures Reach(history) < |history| ==> !history[Reach(history)].Tool?
  {
    var n := Reach(history);
    if n > 1 {
      var answers := history[1..n];
      assert Answers(history[0].calls, answers, replayed);
      forall i | 1 <= i < n ensures history[i].Tool? {
        assert answers[i - 1] == history[i];
      }
    }
    if n < |history| {
      assert history[n..][0] == history[n];
    }
  }

  // One group in front of a stored history.
  lemma StoredFrom(history: seq<Message>, replayed: set<seq<ToolRequest>>)
    requires history != [] && !history[0].Tool? && !history[0].System? && Reach(history) <= |history|
    requires Reach(history) > 1 ==> Answers(history[0].calls, history[1..Reach(history)], replayed)
    requires Stored(history[Reach(history)..], replayed)
    ensures Stored(history, replayed)
  {
  }

  lemma {:induction false} StoredAppend(a: seq<Message>, b: seq<Message>, replayed: set<seq<ToolRequest>>)
    requires Stored(a, replayed) && Stored(b, replayed)
    ensures Stored(a + b, replayed)
    decreases |a|
  {
    if a == [] {
      assert a + b == b;
    } else {
      StoredFirst(a, replayed);
      var n := Reach(a);
      var joined := a + b;
      if b != [] {
        StoredFirst(b, replayed);
      }
      SameReach(a, b);
      JoinSlices(a, b, n);
      hide Answers, Stored, Reach;
      StoredAppend(a[n..], b, replayed);
      StoredFrom(joined, replayed);
    }
  }

  lemma SameReach(a: seq<Message>, b: seq<Message>)
    requires a != [] && (b != [] ==> !b[0].Tool?)
    ensures Reach(a + b) == Reach(a)
  {
  }

  lemma JoinSlices(a: seq<Message>, b: seq<Message>, n: nat)
    requires 1 <= n <= |a|
    ensures (a + b)[0] == a[0] && (a + b)[n..] == a[n..] + b && (a + b)[1..n] == a[1..n]
  {
  }

  lemma {:induction false} GroupsAreStored(turn: seq<Message>, replayed: set<seq<ToolRequest>>)
    requires Groups(turn, replayed)
    ensures Stored(turn, replayed)
    decreases |turn|
  {
    if turn != [] {
      var n := GroupSize(turn[0]);
      GroupsAreStored(turn[n..], replayed);
      if n > 1 {
        assert turn[1..n][0] == turn[1];
      } else if |turn| > 1 {
        assert turn[1..][0] == turn[1];
      }
    }
  }

  lemma {:induction false} StoredMonotone(history: seq<Message>, small: set<seq<ToolRequest>>, big: set<seq<ToolRequest>>)
    requires Stored(history, small) && small <= big
    ensures Stored(history, big)
    decreases |history|
  {
    if history != [] {
      StoredFirst(history, small);
      StoredMonotone(history[Reach(history)..], small, big);
    }
  }

  // A finished turn leaves a stored history behind, if it is stored as it is.
  lemma StoredGoesOn(agent: Agent, last: Attempt, w: Work, replayed: set<seq<ToolRequest>>)
    requires Finished(agent, last, w) && Stored(w.history, replayed)
    requires StoredTurn(w) == w.history + Turn(last, w)
    ensures Stored(StoredTurn(w), replayed + last.view.replayed)
  {
    var all := replayed + last.view.replayed;
    var turn := Turn(last, w);
    TurnShape(agent, last, w);
    hide Finished;
    if turn[|turn| - 1].calls == [] {
      GroupsAreStored(turn, last.view.replayed);
    } else {
      var n := |turn| - 1;
      GroupsAreStored(turn[..n], last.view.replayed);
      assert [turn[n]][1..] == [];
      assert Stored([turn[n]], last.view.replayed);
      StoredAppend(turn[..n], [turn[n]], last.view.replayed);
      assert turn == turn[..n] + [turn[n]];
    }
    StoredMonotone(turn, last.view.replayed, all);
    StoredMonotone(w.history, replayed, all);
    StoredAppend(w.history, turn, all);
  }

  // ---------------------------------------------------------------------
  // The part of it that the next request quotes
  // ---------------------------------------------------------------------

  lemma {:induction false} TailIsStored(history: seq<Message>, i: nat, replayed: set<seq<ToolRequest>>)
    requires Stored(history, replayed) && i <= |history| && (i < |history| ==> !history[i].Tool?)
    ensures Stored(history[i..], replayed)
    decreases |history|
  {
    if i > 0 {
      StoredFirst(history, replayed);
      var n := Reach(history);
      assert i >= n;
      assert history[n..][i - n..] == history[i..];
      TailIsStored(history[n..], i - n, replayed);
    }
  }

  // No call in it was cut.
  predicate Uncut(messages: seq<Message>) {
    forall i :: 0 <= i < |messages| && messages[i].Assistant? && messages[i].calls != [] ==>
      i + 1 < |messages| && messages[i + 1].Tool?
  }

  lemma {:induction false} QuotedExactly(quoted: seq<Message>, input: string, replayed: set<seq<ToolRequest>>)
    requires Stored(quoted, replayed)
    ensures Wire.Complete(Wire.EntriesOf(quoted + [User(input)])) <==> Uncut(quoted)
    decreases |quoted|
  {
    var messages := quoted + [User(input)];
    var entries := Wire.EntriesOf(messages);
    if quoted == [] {
      assert entries[1..] == [];
    } else {
      StoredFirst(quoted, replayed);
      var n := Reach(quoted);
      var m := quoted[0];
      assert entries[0] == Wire.EntryOf(m) && Wire.GroupLength(entries[0]) == GroupSize(m);
      if n == GroupSize(m) {
        assert messages[n..] == quoted[n..] + [User(input)];
        Wire.EntriesSplit(messages, n);
        QuotedExactly(quoted[n..], input, replayed);
        forall i | 1 <= i < n ensures entries[i].role == "tool" {
          assert messages[i] == quoted[i];
        }
        UncutSplit(quoted, n);
      } else {
        assert m.Assistant? && m.calls != [];
        assert entries[1] == Wire.EntryOf(messages[1]) && !messages[1].Tool?;
      }
    }
  }

  lemma UncutSplit(quoted: seq<Message>, n: nat)
    requires 1 <= n <= |quoted| && (forall i :: 1 <= i < n ==> quoted[i].Tool?) && n == GroupSize(quoted[0])
    ensures Uncut(quoted) <==> Uncut(quoted[n..])
  {
    var rest := quoted[n..];
    forall i | 0 <= i < |rest|
      ensures rest[i] == quoted[n + i]
    {
    }
    if Uncut(rest) {
      forall i | 0 <= i < |quoted| && quoted[i].Assistant? && quoted[i].calls != []
        ensures i + 1 < |quoted| && quoted[i + 1].Tool?
      {
        if i >= n {
          assert rest[i - n] == quoted[i];
        }
      }
    }
  }

  // The next request of a session is a complete transcript exactly when the
  // twenty messages it quotes do not start inside a group of answers and
  // contain no turn that the iteration limit cut.
  lemma NextRequestComplete(prompt: string, history: seq<Message>, input: string, replayed: set<seq<ToolRequest>>)
    requires Stored(history, replayed)
    ensures var quoted := HistoryTail(history);
            Wire.Complete(Wire.EntriesOf(FreshTranscript(prompt, history, input)))
            <==> (quoted == [] || !quoted[0].Tool?) && Uncut(quoted)
  {
    var quoted := HistoryTail(history);
    var from := |history| - |quoted|;
    assert quoted == history[from..];
    var messages := quoted + [User(input)];
    var all := FreshTranscript(prompt, history, input);
    assert all == [System(prompt)] + messages;
    assert all[1..] == messages;
    Wire.EntriesSplit(all, 1);
    var entries := Wire.EntriesOf(all);
    assert entries[0] == Wire.EntryOf(all[0]) && entries[1..] == Wire.EntriesOf(messages);
    assert Wire.Complete(entries) <==> Wire.Complete(entries[1..]);
    if quoted == [] || !quoted[0].Tool? {
      TailIsStored(history, from, replayed);
      QuotedExactly(quoted, input, replayed);
    } else {
      assert Wire.EntriesOf(messages)[0] == Wire.EntryOf(quoted[0]);
    }
  }
}
