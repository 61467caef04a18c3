// A chat transcript rewritten as messages of the Anthropic Messages API: system
// text apart, roles alternating, tool answers as blocks of user messages.
module AnthropicWire {
  import opened Wrappers
  import Loop = AgentModel

  // An item of list content either has text of its own or is rendered as text.
  datatype Item = TextItem(text: string) | OtherItem(rendering: string)

  // Content that is no list counts as its text.
  datatype Content = Plain(text: string) | Listed(items: seq<Item>)

  datatype ToolCall = ToolCall(id: string, name: string, input: string)

  // Absent and empty fields look the same to the conversion.
  datatype Entry = Entry(role: string, content: Content, calls: seq<ToolCall>, callId: string, name: string)

  datatype Block = Passed(item: Item) | ToolUse(id: string, name: string, input: string) | ToolResult(id: string, text: string)

  datatype WireContent = Bare(text: string) | Blocks(blocks: seq<Block>)

  datatype Wire = Wire(role: string, content: WireContent)

  function ItemsText(items: seq<Item>): string {
    if items == [] then ""
    else (match items[0] case TextItem(text) => text case OtherItem(rendering) => rendering) + ItemsText(items[1..])
  }

  function ContentText(content: Content): string {
    match content
    case Plain(text) => text
    case Listed(items) => ItemsText(items)
  }

  function AsBlocks(content: WireContent): seq<Block> {
    match content
    case Bare(text) => [Passed(TextItem(text))]
    case Blocks(blocks) => blocks
  }

  function PassedItems(items: seq<Item>): seq<Block> {
    seq(|items|, i requires 0 <= i < |items| => Passed(items[i]))
  }

  function AsWire(content: Content): WireContent {
    match content
    case Plain(text) => Bare(text)
    case Listed(items) => Blocks(PassedItems(items))
  }

  // A message of the role it follows is merged into it.
  function Append(messages: seq<Wire>, role: string, content: WireContent): seq<Wire> {
    if messages != [] && messages[|messages| - 1].role == role then
      var last := messages[|messages| - 1];
      messages[..|messages| - 1] + [Wire(role, Blocks(AsBlocks(last.content) + AsBlocks(content)))]
    else messages + [Wire(role, content)]
  }

  function ToolId(e: Entry): string {
    if e.callId != "" then e.callId else if e.name != "" then e.name else "tool"
  }

  function UseOf(call: ToolCall): Block {
    ToolUse(if call.id != "" then call.id else "tool-call", call.name, call.input)
  }

  function UseBlocks(calls: seq<ToolCall>): seq<Block> {
    seq(|calls|, i requires 0 <= i < |calls| => UseOf(calls[i]))
  }

  function CallBlocks(e: Entry): seq<Block> {
    (if ContentText(e.content) != "" then [Passed(TextItem(ContentText(e.content)))] else []) + UseBlocks(e.calls)
  }

  function WireRole(role: string): string {
    if role == "user" || role == "assistant" then role else "user"
  }

  function Step(converted: seq<Wire>, e: Entry): seq<Wire> {
    if e.role == "system" then converted
    else if e.role == "tool" then Append(converted, "user", Blocks([ToolResult(ToolId(e), ContentText(e.content))]))
    else if e.role == "assistant" && e.calls != [] then Append(converted, "assistant", Blocks(CallBlocks(e)))
    else Append(converted, WireRole(e.role), AsWire(e.content))
  }

  function Fold(converted: seq<Wire>, entries: seq<Entry>): seq<Wire>
    decreases |entries|
  {
    if entries == [] then converted else Fold(Step(converted, entries[0]), entries[1..])
  }

  function SystemTexts(entries: seq<Entry>): seq<string> {
    if entries == [] then []
    else
      var e := entries[|entries| - 1];
      SystemTexts(entries[..|entries| - 1]) +
      (if e.role == "system" && ContentText(e.content) != "" then [ContentText(e.content)] else [])
  }

  method Payload(entries: seq<Entry>) returns (system: seq<string>, converted: seq<Wire>)
    ensures system == SystemTexts(entries)
    ensures converted == Fold([], entries)
    ensures Alternates(converted)
    ensures Flat(converted) == Transcript(entries)
  {
    system, converted := [], [];
    hide Append, CallBlocks, ContentText, UseOf, AsWire;
    for i := 0 to |entries|
      invariant system == SystemTexts(entries[..i])
      invariant Fold(converted, entries[i..]) == Fold([], entries)
    {
      var e := entries[i];
      assert entries[..i + 1][..i] == entries[..i];
      assert entries[i..][0] == e && entries[i..][1..] == entries[i + 1..];
      if e.role == "system" {
        var text := ContentText(e.content);
        if text != "" {
          system := system + [text];
        }
      } else if e.role == "tool" {
        converted := AppendMessage(converted, "user", Blocks([ToolResult(ToolId(e), ContentText(e.content))]));
      } else if e.role == "assistant" && e.calls != [] {
        var blocks := AssistantBlocks(e);
        converted := AppendMessage(converted, "assistant", Blocks(blocks));
      } else {
        converted := AppendMessage(converted, WireRole(e.role), AsWire(e.content));
      }
    }
    assert entries[..|entries|] == entries;
    FoldKeeps([], entries);
  }

  method AssistantBlocks(e: Entry) returns (blocks: seq<Block>)
    ensures blocks == CallBlocks(e)
  {
    blocks := [];
    var text := ContentText(e.content);
    if text != "" {
      blocks := [Passed(TextItem(text))];
    }
    ghost var start := blocks;
    for j := 0 to |e.calls|
      invariant blocks == start + UseBlocks(e.calls[..j])
    {
      blocks := blocks + [UseOf(e.calls[j])];
    }
    assert e.calls[..|e.calls|] == e.calls;
  }

  method AppendMessage(messages: seq<Wire>, role: string, content: WireContent) returns (appended: seq<Wire>)
    ensures appended == Append(messages, role, content)
  {
    if messages != [] && messages[|messages| - 1].role == role {
      var last := messages[|messages| - 1];
      appended := messages[|messages| - 1 := Wire(role, Blocks(AsBlocks(last.content) + AsBlocks(content)))];
    } else {
      appended := messages + [Wire(role, content)];
    }
  }

  // ---------------------------------------------------------------------
  // Nothing lost, nothing reordered, no two neighbours of one role
  // ---------------------------------------------------------------------

  predicate Alternates(converted: seq<Wire>) {
    && (forall k :: 0 <= k < |converted| ==> converted[k].role == "user" || converted[k].role == "assistant")
    && forall k :: 0 <= k < |converted| - 1 ==> converted[k].role != converted[k + 1].role
  }

  datatype Said = Said(role: string, block: Block)

  function Tagged(role: string, blocks: seq<Block>): seq<Said> {
    seq(|blocks|, i requires 0 <= i < |blocks| => Said(role, blocks[i]))
  }

  // All blocks on the wire, each with the role it is attributed to.
  function Flat(converted: seq<Wire>): seq<Said> {
    if converted == [] then []
    else
      var n := |converted| - 1;
      Flat(converted[..n]) + Tagged(converted[n].role, AsBlocks(converted[n].content))
  }

  // What one message of the transcript says.
  function EntryContent(e: Entry): seq<Said> {
    if e.role == "system" then []
    else if e.role == "tool" then [Said("user", ToolResult(ToolId(e), ContentText(e.content)))]
    else if e.role == "assistant" && e.calls != [] then Tagged("assistant", CallBlocks(e))
    else Tagged(WireRole(e.role), AsBlocks(AsWire(e.content)))
  }

  // One message in the wire's terms: a system message is no block, a tool message
  // one result under the first id it has, an assistant's calls one use each after
  // its text, and anything else its content, the assistant's as the assistant's
  // and all others as the user's.
  lemma EntrySays(e: Entry)
    ensures e.role == "system" ==> EntryContent(e) == []
    ensures e.role == "tool" ==>
              EntryContent(e) == [Said("user", ToolResult(
                if e.callId != "" then e.callId else if e.name != "" then e.name else "tool", ContentText(e.content)))]
    ensures e.role == "assistant" && e.calls != [] ==>
              var text := if ContentText(e.content) == "" then [] else [Said("assistant", Passed(TextItem(ContentText(e.content))))];
              && |EntryContent(e)| == |text| + |e.calls| && text <= EntryContent(e)
              && forall i :: 0 <= i < |e.calls| ==>
                   EntryContent(e)[|text| + i] == Said("assistant",
                     ToolUse(if e.calls[i].id == "" then "tool-call" else e.calls[i].id, e.calls[i].name, e.calls[i].input))
    ensures e.role != "system" && e.role != "tool" && (e.role == "assistant" ==> e.calls == []) ==>
              var role := if e.role == "assistant" then "assistant" else "user";
              if e.content.Plain? then EntryContent(e) == [Said(role, Passed(TextItem(e.content.text)))]
              else
                && |EntryContent(e)| == |e.content.items|
                && forall i :: 0 <= i < |e.content.items| ==> EntryContent(e)[i] == Said(role, Passed(e.content.items[i]))
  {
  }

  // The text of a list is that of its items in order.
  lemma {:induction false} ItemsTextJoins(a: seq<Item>, b: seq<Item>)
    ensures ItemsText(a + b) == ItemsText(a) + ItemsText(b)
    ensures forall text: string :: ItemsText([TextItem(text)]) == text && ItemsText([OtherItem(text)]) == text
  {
    if a == [] {
      assert a + b == b;
    } else {
      assert (a + b)[1..] == a[1..] + b;
      ItemsTextJoins(a[1..], b);
    }
  }

  // The system prompt is the non-empty texts of the system messages in order.
  lemma {:induction false} SystemTextsJoin(a: seq<Entry>, b: seq<Entry>)
    ensures SystemTexts(a + b) == SystemTexts(a) + SystemTexts(b)
  {
    hide ContentText;
    if b == [] {
      assert a + b == a;
    } else {
      var n := |b| - 1;
      assert (a + b)[..|a| + n] == a + b[..n];
      SystemTextsJoin(a, b[..n]);
    }
  }

  lemma SystemTextIs(e: Entry)
    ensures SystemTexts([e]) == if e.role == "system" && ContentText(e.content) != "" then [ContentText(e.content)] else []
  {
    assert [e][..0] == [];
  }

  function Transcript(entries: seq<Entry>): seq<Said> {
    if entries == [] then [] else EntryContent(entries[0]) + Transcript(entries[1..])
  }

  lemma AppendAlternates(messages: seq<Wire>, role: string, content: WireContent)
    requires Alternates(messages) && (role == "user" || role == "assistant")
    ensures Alternates(Append(messages, role, content))
  {
    hide AsBlocks;
  }

  lemma AppendKeeps(messages: seq<Wire>, role: string, content: WireContent)
    requires Alternates(messages) && (role == "user" || role == "assistant")
    ensures Alternates(Append(messages, role, content))
    ensures Flat(Append(messages, role, content)) == Flat(messages) + Tagged(role, AsBlocks(content))
  {
    var n := |messages| - 1;
    AppendAlternates(messages, role, content);
    hide Tagged, Alternates, Flat, AsBlocks;
    if messages != [] && messages[n].role == role {
      var earlier, added := AsBlocks(messages[n].content), AsBlocks(content);
      assert messages == messages[..n] + [messages[n]];
      FlatLast(messages[..n], messages[n]);
      FlatLast(messages[..n], Wire(role, Blocks(earlier + added)));
      AsBlocksOf(earlier + added);
      TaggedAppend(role, earlier, added);
      Associates(Flat(messages[..n]), Tagged(role, earlier), Tagged(role, added));
    } else {
      FlatLast(messages, Wire(role, content));
    }
  }

  lemma FlatLast(messages: seq<Wire>, last: Wire)
    ensures Flat(messages + [last]) == Flat(messages) + Tagged(last.role, AsBlocks(last.content))
  {
    assert (messages + [last])[..|messages|] == messages;
  }

  lemma Associates<T>(a: seq<T>, b: seq<T>, c: seq<T>)
    ensures a + b + c == a + (b + c)
  {
  }

  lemma TaggedAppend(role: string, a: seq<Block>, b: seq<Block>)
    ensures Tagged(role, a + b) == Tagged(role, a) + Tagged(role, b)
  {
  }

  lemma StepKeeps(converted: seq<Wire>, e: Entry)
    requires Alternates(converted)
    ensures Alternates(Step(converted, e))
    ensures Flat(Step(converted, e)) == Flat(converted) + EntryContent(e)
  {
    hide Append, Flat, Alternates, CallBlocks, ContentText;
    if e.role == "tool" {
      var block := ToolResult(ToolId(e), ContentText(e.content));
      AppendKeeps(converted, "user", Blocks([block]));
      assert Tagged("user", [block]) == [Said("user", block)];
    } else if e.role == "assistant" && e.calls != [] {
      AppendKeeps(converted, "assistant", Blocks(CallBlocks(e)));
    } else if e.role != "system" {
      AppendKeeps(converted, WireRole(e.role), AsWire(e.content));
    }
  }

  // The wire messages say what the transcript says, block by block and in
  // order, under alternating roles.
  lemma {:induction false} FoldKeeps(converted: seq<Wire>, entries: seq<Entry>)
    requires Alternates(converted)
    ensures Alternates(Fold(converted, entries))
    ensures Flat(Fold(converted, entries)) == Flat(converted) + Transcript(entries)
    decreases |entries|
  {
    hide Step, Flat, Alternates, EntryContent;
    if entries != [] {
      StepKeeps(converted, entries[0]);
      FoldKeeps(Step(converted, entries[0]), entries[1..]);
    }
  }

  // ---------------------------------------------------------------------
  // Tool calls and their answers
  // ---------------------------------------------------------------------

  function Uses(blocks: seq<Block>): seq<string> {
    if blocks == [] then []
    else
      var n := |blocks| - 1;
      Uses(blocks[..n]) + (if blocks[n].ToolUse? then [blocks[n].id] else [])
  }

  // A message starts with the results of these calls, in order.
  predicate StartsWith(blocks: seq<Block>, ids: seq<string>) {
    && |blocks| >= |ids|
    && forall j :: 0 <= j < |ids| ==> blocks[j].ToolResult? && blocks[j].id == ids[j]
  }

  predicate AnsweredAt(converted: seq<Wire>, k: nat)
    requires k < |converted|
  {
    var ids := Uses(AsBlocks(converted[k].content));
    ids != [] ==>
      && converted[k].role == "assistant" && k + 1 < |converted| && converted[k + 1].role == "user"
      && StartsWith(AsBlocks(converted[k + 1].content), ids)
  }

  // Every group of tool calls is answered by the very next message.
  predicate Answered(converted: seq<Wire>) {
    forall k :: 0 <= k < |converted| ==> AnsweredAt(converted, k)
  }

  predicate CallsTools(e: Entry) {
    e.role == "assistant" && e.calls != []
  }

  function GroupLength(e: Entry): nat {
    if CallsTools(e) then 1 + |e.calls| else 1
  }

  // Tool messages appear only after a message that calls tools, one for each
  // call.
  predicate Complete(entries: seq<Entry>)
    decreases |entries|
  {
    entries == [] ||
    (&& entries[0].role != "tool"
     && GroupLength(entries[0]) <= |entries|
     && (forall i :: 1 <= i < GroupLength(entries[0]) ==> entries[i].role == "tool")
     && Complete(entries[GroupLength(entries[0])..]))
  }

  predicate GroupMatches(call: Entry, answers: seq<Entry>)
    requires |answers| == |call.calls|
  {
    forall i :: 0 <= i < |answers| ==> ToolId(answers[i]) == UseOf(call.calls[i]).id
  }

  // Each answer names the id of the call it answers.
  predicate IdsMatch(entries: seq<Entry>)
    requires Complete(entries)
    decreases |entries|
  {
    entries == [] ||
    (var n := GroupLength(entries[0]);
     && (CallsTools(entries[0]) ==> GroupMatches(entries[0], entries[1..n]))
     && IdsMatch(entries[n..]))
  }

  lemma {:induction false} UsesAppend(a: seq<Block>, b: seq<Block>)
    ensures Uses(a + b) == Uses(a) + Uses(b)
  {
    if b == [] {
      assert a + b == a;
    } else {
      var b' := b[..|b| - 1];
      assert (a + b)[..|a + b| - 1] == a + b';
      UsesAppend(a, b');
    }
  }

  lemma {:induction false} NoUses(blocks: seq<Block>)
    requires forall i :: 0 <= i < |blocks| ==> !blocks[i].ToolUse?
    ensures Uses(blocks) == []
  {
    if blocks != [] {
      NoUses(blocks[..|blocks| - 1]);
    }
  }

  function CallIds(calls: seq<ToolCall>): seq<string> {
    seq(|calls|, i requires 0 <= i < |calls| => UseOf(calls[i]).id)
  }

  lemma {:induction false} AllUses(calls: seq<ToolCall>)
    ensures Uses(UseBlocks(calls)) == CallIds(calls)
  {
    if calls != [] {
      var n := |calls| - 1;
      AllUses(calls[..n]);
      assert UseBlocks(calls)[..n] == UseBlocks(calls[..n]);
      assert CallIds(calls) == CallIds(calls[..n]) + [UseOf(calls[n]).id];
    }
  }

  lemma CallBlockUses(e: Entry)
    ensures Uses(CallBlocks(e)) == CallIds(e.calls)
  {
    var text := if ContentText(e.content) != "" then [Passed(TextItem(ContentText(e.content)))] else [];
    NoUses(text);
    AllUses(e.calls);
    UsesAppend(text, UseBlocks(e.calls));
  }

  // What cannot be undone: the message after a group of calls starts with
  // something else than their results.
  predicate MismatchAt(converted: seq<Wire>, k: nat) {
    && k + 1 < |converted|
    && (var ids := Uses(AsBlocks(converted[k].content));
        var blocks := AsBlocks(converted[k + 1].content);
        |blocks| >= |ids| && !StartsWith(blocks, ids))
  }

  // Adding blocks that call nothing changes neither.
  lemma AppendAnswered(converted: seq<Wire>, role: string, content: WireContent)
    requires Uses(AsBlocks(content)) == [] && Answered(converted)
    ensures Answered(Append(converted, role, content))
  {
    if converted != [] {
      LastCallsNothing(converted);
    }
    StillAnswered(converted, role, content);
    UsesAtEnd(converted, role, content);
    EndsWithRole(converted, role, content);
    hide Append, Uses;
  }

  lemma AppendMismatch(converted: seq<Wire>, role: string, content: WireContent, k: nat)
    requires MismatchAt(converted, k)
    ensures MismatchAt(Append(converted, role, content), k)
  {
    hide Uses;
    var after := Append(converted, role, content);
    var was, now := AsBlocks(converted[k + 1].content), AsBlocks(after[k + 1].content);
    assert was <= now && after[k] == converted[k];
    assert forall j :: 0 <= j < |was| ==> now[j] == was[j];
  }

  function Results(tools: seq<Entry>): seq<Block> {
    seq(|tools|, i requires 0 <= i < |tools| => ToolResult(ToolId(tools[i]), ContentText(tools[i].content)))
  }

  lemma {:induction false} FoldAppend(converted: seq<Wire>, a: seq<Entry>, b: seq<Entry>)
    ensures Fold(converted, a + b) == Fold(Fold(converted, a), b)
    decreases |a|
  {
    hide Step;
    if a == [] {
      assert a + b == b;
    } else {
      assert (a + b)[1..] == a[1..] + b;
      FoldAppend(Step(converted, a[0]), a[1..], b);
    }
  }

  // Tool messages after a user message all go into it.
  lemma {:induction false} ResultsMerge(converted: seq<Wire>, before: seq<Block>, tools: seq<Entry>)
    requires forall i :: 0 <= i < |tools| ==> tools[i].role == "tool"
    ensures Fold(converted + [Wire("user", Blocks(before))], tools)
         == converted + [Wire("user", Blocks(before + Results(tools)))]
    decreases |tools|
  {
    var start := converted + [Wire("user", Blocks(before))];
    if tools == [] {
      assert before + Results(tools) == before;
    } else {
      var first := [ToolResult(ToolId(tools[0]), ContentText(tools[0].content))];
      assert Step(start, tools[0]) == converted + [Wire("user", Blocks(before + first))];
      ResultsMerge(converted, before + first, tools[1..]);
      assert before + first + Results(tools[1..]) == before + Results(tools);
    }
  }

  lemma CallsAppended(converted: seq<Wire>, call: Entry)
    requires Answered(converted) && CallsTools(call)
    ensures var called := Append(converted, "assistant", Blocks(CallBlocks(call)));
            && called != [] && called[|called| - 1].role == "assistant"
            && Uses(AsBlocks(called[|called| - 1].content)) == CallIds(call.calls)
            && forall k :: 0 <= k < |called| - 1 ==> AnsweredAt(called, k)
  {
    hide *;
    CallBlockUses(call);
    if converted != [] {
      LastCallsNothing(converted);
    }
    UsesAtEnd(converted, "assistant", Blocks(CallBlocks(call)));
    StillAnswered(converted, "assistant", Blocks(CallBlocks(call)));
    AsBlocksOf(CallBlocks(call));
    EndsWithRole(converted, "assistant", Blocks(CallBlocks(call)));
  }

  lemma AsBlocksOf(blocks: seq<Block>)
    ensures AsBlocks(Blocks(blocks)) == blocks
  {
  }

  lemma LastCallsNothing(converted: seq<Wire>)
    requires Answered(converted) && converted != []
    ensures Uses(AsBlocks(converted[|converted| - 1].content)) == []
  {
    assert AnsweredAt(converted, |converted| - 1);
  }

  lemma EndsWithRole(messages: seq<Wire>, role: string, content: WireContent)
    ensures var after := Append(messages, role, content); after != [] && after[|after| - 1].role == role
  {
  }

  lemma StillAnswered(messages: seq<Wire>, role: string, content: WireContent)
    requires Answered(messages)
    ensures var after := Append(messages, role, content); forall k :: 0 <= k < |after| - 1 ==> AnsweredAt(after, k)
  {
    hide Uses;
    var after := Append(messages, role, content);
    forall k | 0 <= k < |after| - 1
      ensures AnsweredAt(after, k)
    {
      assert AnsweredAt(messages, k);
    }
  }

  lemma UsesAtEnd(messages: seq<Wire>, role: string, content: WireContent)
    requires messages != [] && messages[|messages| - 1].role == role ==> Uses(AsBlocks(messages[|messages| - 1].content)) == []
    ensures var after := Append(messages, role, content);
            Uses(AsBlocks(after[|after| - 1].content)) == Uses(AsBlocks(content))
  {
    if messages != [] && messages[|messages| - 1].role == role {
      UsesAppend(AsBlocks(messages[|messages| - 1].content), AsBlocks(content));
    }
    hide Uses;
  }

  lemma AnswersFold(called: seq<Wire>, tools: seq<Entry>)
    requires called != [] && called[|called| - 1].role == "assistant" && tools != []
    requires forall i :: 0 <= i < |tools| ==> tools[i].role == "tool"
    ensures Fold(called, tools) == called + [Wire("user", Blocks(Results(tools)))]
  {
    var first := [ToolResult(ToolId(tools[0]), ContentText(tools[0].content))];
    assert Step(called, tools[0]) == called + [Wire("user", Blocks(first))];
    ResultsMerge(called, first, tools[1..]);
    assert first + Results(tools[1..]) == Results(tools);
  }

  // A message that calls tools, and the messages that answer it.
  lemma GroupExactly(converted: seq<Wire>, call: Entry, tools: seq<Entry>) returns (k: nat)
    requires Answered(converted) && CallsTools(call) && |tools| == |call.calls|
    requires forall i :: 0 <= i < |tools| ==> tools[i].role == "tool"
    ensures var after := Fold(converted, [call] + tools);
            if GroupMatches(call, tools) then Answered(after) else MismatchAt(after, k)
  {
    var called := Append(converted, "assistant", Blocks(CallBlocks(call)));
    assert Step(converted, call) == called;
    assert ([call] + tools)[1..] == tools;
    assert Fold(converted, [call] + tools) == Fold(called, tools);
    k := |called| - 1;
    hide Append, Fold, Uses, CallBlocks, Answered, AnsweredAt, MismatchAt, GroupMatches;
    CallsAppended(converted, call);
    AnswersFold(called, tools);
    GroupAnswered(called, call, tools);
  }

  lemma GroupAnswered(called: seq<Wire>, call: Entry, tools: seq<Entry>)
    requires called != [] && called[|called| - 1].role == "assistant" && CallsTools(call) && |tools| == |call.calls|
    requires Uses(AsBlocks(called[|called| - 1].content)) == CallIds(call.calls)
    requires forall k :: 0 <= k < |called| - 1 ==> AnsweredAt(called, k)
    ensures var after := called + [Wire("user", Blocks(Results(tools)))];
            if GroupMatches(call, tools) then Answered(after) else MismatchAt(after, |called| - 1)
  {
    var after := called + [Wire("user", Blocks(Results(tools)))];
    var n := |called| - 1;
    NoUses(Results(tools));
    hide Uses;
    assert StartsWith(Results(tools), CallIds(call.calls)) <==> GroupMatches(call, tools) by {
      if StartsWith(Results(tools), CallIds(call.calls)) {
        forall i | 0 <= i < |tools|
          ensures ToolId(tools[i]) == UseOf(call.calls[i]).id
        {
          assert Results(tools)[i].id == CallIds(call.calls)[i];
        }
      }
    }
    if GroupMatches(call, tools) {
      forall k | 0 <= k < |after|
        ensures AnsweredAt(after, k)
      {
        assert k < n ==> AnsweredAt(called, k);
      }
    }
  }

  lemma {:induction false} MismatchStays(converted: seq<Wire>, entries: seq<Entry>, k: nat)
    requires MismatchAt(converted, k)
    ensures MismatchAt(Fold(converted, entries), k)
    decreases |entries|
  {
    hide Append, MismatchAt, CallBlocks, ContentText;
    if entries != [] {
      var e := entries[0];
      if e.role == "tool" {
        AppendMismatch(converted, "user", Blocks([ToolResult(ToolId(e), ContentText(e.content))]), k);
      } else if CallsTools(e) {
        AppendMismatch(converted, "assistant", Blocks(CallBlocks(e)), k);
      } else if e.role != "system" {
        AppendMismatch(converted, WireRole(e.role), AsWire(e.content), k);
      }
      MismatchStays(Step(converted, e), entries[1..], k);
    }
  }

  // On a complete transcript every group of tool calls is answered by the next
  // wire message, results first and in order, exactly when the transcript's
  // tool messages name the ids of their calls.
  lemma {:induction false} AnsweredExactly(converted: seq<Wire>, entries: seq<Entry>)
    requires Answered(converted) && Complete(entries)
    ensures Answered(Fold(converted, entries)) <==> IdsMatch(entries)
    decreases |entries|
  {
    if entries != [] {
      var e := entries[0];
      var n := GroupLength(e);
      var tools, rest := entries[1..n], entries[n..];
      assert entries == [e] + tools + rest;
      assert forall i :: 0 <= i < |tools| ==> tools[i].role == "tool" by {
        assert forall i :: 0 <= i < |tools| ==> tools[i] == entries[1 + i];
      }
      hide Fold, Answered, GroupMatches, MismatchAt, Step;
      FoldAppend(converted, [e] + tools, rest);
      var after := Fold(converted, [e] + tools);
      if CallsTools(e) {
        var k := GroupExactly(converted, e, tools);
        if GroupMatches(e, tools) {
          AnsweredExactly(after, rest);
        } else {
          MismatchStays(after, rest, k);
          MismatchIsNoAnswer(Fold(converted, entries), k);
        }
      } else {
        PlainStep(converted, e);
        assert [e] + tools == [e];
        AnsweredExactly(after, rest);
      }
    }
  }

  lemma MismatchIsNoAnswer(converted: seq<Wire>, k: nat)
    requires MismatchAt(converted, k)
    ensures !Answered(converted)
  {
    assert !AnsweredAt(converted, k);
  }

  lemma PlainStep(converted: seq<Wire>, e: Entry)
    requires Answered(converted) && !CallsTools(e) && e.role != "tool"
    ensures Answered(Step(converted, e)) && Fold(converted, [e]) == Step(converted, e)
  {
    assert [e][1..] == [];
    if e.role != "system" {
      NoUses(AsBlocks(AsWire(e.content)));
      AppendAnswered(converted, WireRole(e.role), AsWire(e.content));
    }
  }

  // ---------------------------------------------------------------------
  // Transcripts of the agent loop
  // ---------------------------------------------------------------------

  function CallOf(request: Loop.ToolRequest): ToolCall {
    ToolCall(request.id, request.name, request.arguments)
  }

  function EntryOf(m: Loop.Message): Entry {
    match m
    case System(text) => Entry("system", Plain(text), [], "", "")
    case User(text) => Entry("user", Plain(text), [], "", "")
    case Assistant(text, calls) =>
      Entry("assistant", Plain(text), seq(|calls|, i requires 0 <= i < |calls| => CallOf(calls[i])), "", "")
    case Tool(callId, name, text) => Entry("tool", Plain(text), [], if callId.Some? then callId.value else "", name)
  }

  function EntriesOf(turn: seq<Loop.Message>): seq<Entry> {
    seq(|turn|, i requires 0 <= i < |turn| => EntryOf(turn[i]))
  }

  ghost predicate Named(turn: seq<Loop.Message>) {
    forall m <- turn :: m.Assistant? ==> forall call <- m.calls :: call.id != "" && call.name != ""
  }

  predicate NamesStandIn(calls: seq<Loop.ToolRequest>, answers: seq<Loop.Message>)
    requires |answers| == |calls|
  {
    forall i :: 0 <= i < |calls| && answers[i].Tool? && answers[i].callId.None? ==> calls[i].name == calls[i].id
  }

  // Wherever an answer carries no id, its call's id is the tool's name.
  predicate NamesServeAsIds(turn: seq<Loop.Message>)
    decreases |turn|
  {
    turn == [] ||
    (var n := if turn[0].Assistant? then 1 + |turn[0].calls| else 1;
     && n <= |turn|
     && (turn[0].Assistant? ==> NamesStandIn(turn[0].calls, turn[1..n]))
     && NamesServeAsIds(turn[n..]))
  }

  lemma GroupIds(m: Loop.Message, answers: seq<Loop.Message>, replayed: set<seq<Loop.ToolRequest>>)
    requires m.Assistant? && Loop.Answers(m.calls, answers, replayed)
    requires forall call <- m.calls :: call.id != "" && call.name != ""
    ensures GroupMatches(EntryOf(m), EntriesOf(answers)) <==> NamesStandIn(m.calls, answers)
  {
    var entries := EntriesOf(answers);
    forall i | 0 <= i < |answers|
      ensures ToolId(entries[i]) == UseOf(EntryOf(m).calls[i]).id
         <==> (answers[i].callId.None? ==> m.calls[i].name == m.calls[i].id)
    {
      assert m.calls[i] in m.calls;
    }
  }

  lemma EntriesSplit(turn: seq<Loop.Message>, n: nat)
    requires 1 <= n <= |turn|
    ensures EntriesOf(turn)[n..] == EntriesOf(turn[n..]) && EntriesOf(turn)[1..n] == EntriesOf(turn[1..n])
  {
    hide EntryOf;
  }

  lemma AnswersAreTools(calls: seq<Loop.ToolRequest>, answers: seq<Loop.Message>, replayed: set<seq<Loop.ToolRequest>>)
    requires Loop.Answers(calls, answers, replayed)
    ensures forall i :: 0 <= i < |answers| ==> EntriesOf(answers)[i].role == "tool"
  {
  }

  lemma {:induction false} LoopIds(turn: seq<Loop.Message>, replayed: set<seq<Loop.ToolRequest>>)
    requires Loop.Groups(turn, replayed) && Named(turn)
    ensures Complete(EntriesOf(turn))
    ensures IdsMatch(EntriesOf(turn)) <==> NamesServeAsIds(turn)
    decreases |turn|
  {
    if turn != [] {
      var m := turn[0];
      var n := if m.Assistant? then 1 + |m.calls| else 1;
      var entries := EntriesOf(turn);
      assert EntryOf(m) == entries[0] && GroupLength(entries[0]) == n;
      EntriesSplit(turn, n);
      if m.Assistant? {
        assert m in turn;
        AnswersAreTools(m.calls, turn[1..n], replayed);
        GroupIds(m, turn[1..n], replayed);
      }
      assert Named(turn[n..]);
      assert CallsTools(entries[0]) <==> m.Assistant? && m.calls != [];
      assert forall i :: 1 <= i < n ==> entries[i] == entries[1..n][i - 1];
      hide GroupMatches, NamesStandIn, Named, Loop.Answers, UseOf, EntryOf, EntriesOf;
      LoopIds(turn[n..], replayed);
    }
  }

  // The turn the agent loop builds is answered on the wire exactly when no
  // wave replayed after an approval lost a call id that differs from the
  // tool's name; without such a wave it always is.
  lemma LoopTurnsAnswered(turn: seq<Loop.Message>, replayed: set<seq<Loop.ToolRequest>>)
    requires Loop.Groups(turn, replayed) && Named(turn)
    ensures Answered(Fold([], EntriesOf(turn))) <==> NamesServeAsIds(turn)
    ensures replayed == {} ==> NamesServeAsIds(turn)
  {
    LoopIds(turn, replayed);
    AnsweredExactly([], EntriesOf(turn));
    if replayed == {} {
      NothingReplayed(turn);
    }
  }

  lemma {:induction false} NothingReplayed(turn: seq<Loop.Message>)
    requires Loop.Groups(turn, {})
    ensures NamesServeAsIds(turn)
    decreases |turn|
  {
    if turn != [] {
      NothingReplayed(turn[if turn[0].Assistant? then 1 + |turn[0].calls| else 1..]);
    }
  }
}
