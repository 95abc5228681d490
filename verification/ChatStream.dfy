/**
 Decoding a chat-completion stream (bifrost/chat.go): from provider chunks to the events the
 reader gets.
 */
module ChatStream {
  import opened Wrappers
  import opened StreamEvents

  datatype ToolCallDelta = ToolCallDelta(index: int, id: Option<string>, name: Option<string>, arguments: string)

  datatype Delta = Delta(
    content: Option<string>,
    reasoning: Option<string>,
    signatures: seq<Option<string>>,
    toolCalls: seq<ToolCallDelta>)

  datatype Choice = Choice(delta: Option<Delta>, finishReason: Option<string>)

  /** Only the first choice of a response is read. */
  datatype Chunk = Failure | Response(choices: seq<Choice>, usage: Option<TokenUsage>)

  // ---------------------------------------------------------------- one chunk

  function Signed(w: Wire, signatures: seq<Option<string>>): Wire {
    if signatures == [] then w
    else
      var n := |signatures| - 1;
      Sign(Signed(w, signatures[..n]), Value(signatures[n]))
  }

  function Extended(b: ToolCallBuffer, d: ToolCallDelta): ToolCallBuffer {
    ToolCallBuffer(
      if d.id.Some? then d.id.value else b.id,
      if d.name.Some? then d.name.value else b.name,
      b.arguments + d.arguments)
  }

  function Collected(buffers: Buffers<int>, deltas: seq<ToolCallDelta>): Buffers<int> {
    if deltas == [] then buffers
    else
      CollectedOne(Collected(buffers, deltas[..|deltas| - 1]), deltas[|deltas| - 1])
  }

  function CollectedOne(buffers: Buffers<int>, d: ToolCallDelta): Buffers<int> {
    buffers[d.index := Extended(if d.index in buffers then buffers[d.index] else NO_CALL, d)]
  }

  datatype ChatState = ChatState(wire: Wire, buffers: Buffers<int>, toolCalls: seq<ToolCall>)

  const START := ChatState(SILENT, map[], [])

  function OnDelta(s: ChatState, d: Delta): ChatState {
    var texted := OnContent(s.wire, Value(d.content));
    var reasoned := SendReasoning(texted, Value(d.reasoning));
    s.(wire := Signed(reasoned, d.signatures), buffers := Collected(s.buffers, d.toolCalls))
  }

  ghost function Flush(buffers: Buffers<int>, requireName: bool): seq<ToolCall> {
    IntOrder();
    FlushedCalls(SortedKeys(buffers.Keys, IntLess), buffers, requireName)
  }

  ghost function OnFinish(s: ChatState, reason: string): ChatState {
    if reason == "tool_calls" then s.(toolCalls := Flush(s.buffers, false))
    else if reason == "stop" then s.(wire := Closed(s.wire))
    else s
  }

  ghost function OnChoice(s: ChatState, c: Choice): ChatState {
    OnFinish(if c.delta.Some? then OnDelta(s, c.delta.value) else s, Value(c.finishReason))
  }

  ghost function OnResponse(s: ChatState, chunk: Chunk): ChatState
    requires chunk.Response?
  {
    var chosen := if chunk.choices != [] then OnChoice(s, chunk.choices[0]) else s;
    if chunk.usage.Some? then chosen.(wire := SendUsage(chosen.wire, chunk.usage.value)) else chosen
  }

  // ---------------------------------------------------------------- whole streams

  predicate NoFailure(chunks: seq<Chunk>) {
    forall i :: 0 <= i < |chunks| ==> chunks[i].Response?
  }

  ghost function Run(chunks: seq<Chunk>): ChatState
    requires NoFailure(chunks)
  {
    if chunks == [] then START
    else OnResponse(Run(chunks[..|chunks| - 1]), chunks[|chunks| - 1])
  }

  ghost function Finished(s: ChatState): Events {
    if s.toolCalls != [] then s.wire.sent + [ToolCalls(s.toolCalls)]
    else
      var calls := Flush(s.buffers, true);
      Closed(s.wire).sent + [if calls != [] then ToolCalls(calls) else End]
  }

  /** The chunks before the first failure, which are those that are read. */
  function Heard(chunks: seq<Chunk>): (heard: seq<Chunk>)
    ensures NoFailure(heard) && heard <= chunks
    ensures |heard| == |chunks| || chunks[|heard|].Failure?
  {
    if chunks == [] || chunks[0].Failure? then [] else [chunks[0]] + Heard(chunks[1..])
  }

  /** The events of a stream that ends when its chunks do. */
  ghost function ChatEvents(chunks: seq<Chunk>): Events {
    var s := Run(Heard(chunks));
    if Heard(chunks) == chunks then Finished(s) else s.wire.sent + [Error]
  }

  lemma {:induction false} HeardUpTo(chunks: seq<Chunk>, n: nat)
    requires n < |chunks| && NoFailure(chunks[..n]) && chunks[n].Failure?
    ensures Heard(chunks) == chunks[..n]
  {
    if n > 0 {
      assert chunks[0] == chunks[..n][0];
      assert chunks[1..][..n - 1] == chunks[..n][1..];
      HeardUpTo(chunks[1..], n - 1);
    }
  }

  lemma {:induction false} HeardAll(chunks: seq<Chunk>)
    requires NoFailure(chunks)
    ensures Heard(chunks) == chunks
  {
    if chunks != [] { HeardAll(chunks[1..]); }
  }

  // ---------------------------------------------------------------- the event loop

  method CollectToolCalls(buffers: Buffers<int>, deltas: seq<ToolCallDelta>) returns (buffers': Buffers<int>)
    ensures buffers' == Collected(buffers, deltas)
  {
    buffers' := buffers;
    for i := 0 to |deltas|
      invariant buffers' == Collected(buffers, deltas[..i])
    {
      assert deltas[..i + 1] == deltas[..i] + [deltas[i]];
      CollectedSnoc(buffers, deltas[..i], deltas[i]);
      buffers' := CollectToolCall(buffers', deltas[i]);
    }
    assert deltas[..|deltas|] == deltas;
  }

  method CollectToolCall(buffers: Buffers<int>, tc: ToolCallDelta) returns (buffers': Buffers<int>)
    ensures buffers' == CollectedOne(buffers, tc)
  {
    var buffer := if tc.index in buffers then buffers[tc.index] else NO_CALL;
    if tc.id.Some? { buffer := buffer.(id := tc.id.value); }
    if tc.name.Some? { buffer := buffer.(name := tc.name.value); }
    buffer := buffer.(arguments := buffer.arguments + tc.arguments);
    buffers' := buffers[tc.index := buffer];
  }

  lemma CollectedSnoc(buffers: Buffers<int>, deltas: seq<ToolCallDelta>, d: ToolCallDelta)
    ensures Collected(buffers, deltas + [d]) == CollectedOne(Collected(buffers, deltas), d)
  {
    assert (deltas + [d])[..|deltas|] == deltas;
  }

  /** The text and reasoning of one delta. */
  method ReadDelta(d: Delta, reasoning: ReasoningAccumulator, output: Events) returns (output': Events)
    modifies reasoning
    ensures Wire(output', reasoning.Value()) ==
            Signed(SendReasoning(OnContent(Wire(output, old(reasoning.Value())), Value(d.content)), Value(d.reasoning)), d.signatures)
  {
    output' := output;
    if d.content.Some? && d.content.value != "" {
      output' := reasoning.EmitEnd(output');
      output' := output' + [Text(d.content.value)];
    }
    if d.reasoning.Some? && d.reasoning.value != "" {
      output' := output' + [ReasoningDelta(d.reasoning.value)];
      reasoning.buffer := reasoning.buffer + d.reasoning.value;
    }
    ghost var unsigned := Wire(output', reasoning.Value());
    for i := 0 to |d.signatures|
      invariant Wire(output', reasoning.Value()) == Signed(unsigned, d.signatures[..i])
    {
      assert d.signatures[..i + 1][..i] == d.signatures[..i];
      var signature := d.signatures[i];
      if signature.Some? && signature.value != "" { reasoning.signature := signature.value; }
    }
    assert d.signatures[..|d.signatures|] == d.signatures;
  }

  method ReadChunk(chunk: Chunk, reasoning: ReasoningAccumulator, output: Events, buffers: Buffers<int>, toolCalls: seq<ToolCall>)
    returns (output': Events, buffers': Buffers<int>, toolCalls': seq<ToolCall>)
    requires chunk.Response?
    modifies reasoning
    ensures ChatState(Wire(output', reasoning.Value()), buffers', toolCalls') ==
            OnResponse(ChatState(Wire(output, old(reasoning.Value())), buffers, toolCalls), chunk)
  {
    output', buffers', toolCalls' := output, buffers, toolCalls;
    if |chunk.choices| > 0 {
      var choice := chunk.choices[0];
      if choice.delta.Some? {
        output' := ReadDelta(choice.delta.value, reasoning, output');
        buffers' := CollectToolCalls(buffers', choice.delta.value.toolCalls);
      }
      if choice.finishReason.Some? {
        if choice.finishReason.value == "tool_calls" {
          IntOrder();
          toolCalls' := FlushToolCallBuffers(buffers', IntLess, false);
        } else if choice.finishReason.value == "stop" {
          output' := reasoning.EmitEnd(output');
        }
      }
    }
    if chunk.usage.Some? {
      var usage := chunk.usage.value;
      if usage.inputTokens > 0 || usage.outputTokens > 0 { output' := output' + [Usage(usage)]; }
    }
  }

  /** The provider refuses the request, or sends chunks. */
  method StreamChat(response: Option<seq<Chunk>>) returns (output: Events)
    ensures response.None? ==> output == [Error]
    ensures response.Some? ==> output == ChatEvents(response.value)
    ensures WellFormed(output)
    ensures response.Some? ==> Delivers(output, response.value)
  {
    TerminalFinishes(SILENT, Error);
    if response.None? { return [Error]; }
    ghost var last := AllEvents(response.value);
    ChatEventsAreWellFormed(response.value);
    output := ReadChunks(response.value);
  }

  method ReadChunks(chunks: seq<Chunk>) returns (output: Events)
    ensures output == ChatEvents(chunks)
  {
    var toolCalls, buffers := [], map[];
    var reasoning := new ReasoningAccumulator();
    output := [];
    for i := 0 to |chunks|
      invariant NoFailure(chunks[..i])
      invariant ChatState(Wire(output, reasoning.Value()), buffers, toolCalls) == Run(chunks[..i])
    {
      if chunks[i].Failure? {
        HeardUpTo(chunks, i);
        return output + [Error];
      }
      RunUpTo(chunks, i);
      output, buffers, toolCalls := ReadChunk(chunks[i], reasoning, output, buffers, toolCalls);
    }
    assert chunks[..|chunks|] == chunks;
    HeardAll(chunks);
    output := FinishStream(reasoning, output, buffers, toolCalls);
  }

  method FinishStream(reasoning: ReasoningAccumulator, output: Events, buffers: Buffers<int>, toolCalls: seq<ToolCall>)
    returns (output': Events)
    modifies reasoning
    ensures output' == Finished(ChatState(Wire(output, old(reasoning.Value())), buffers, toolCalls))
  {
    if |toolCalls| > 0 { return output + [ToolCalls(toolCalls)]; }
    output' := reasoning.EmitEnd(output);
    var calls := FlushPending(buffers);
    if |calls| > 0 { return output' + [ToolCalls(calls)]; }
    output' := output' + [End];
  }

  method FlushPending(buffers: Buffers<int>) returns (calls: seq<ToolCall>)
    ensures calls == Flush(buffers, true)
  {
    IntOrder();
    if |buffers| == 0 {
      NothingToFlush();
      return [];
    }
    calls := FlushToolCallBuffers(buffers, IntLess, true);
  }

  lemma RunUpTo(chunks: seq<Chunk>, i: nat)
    requires i < |chunks| && NoFailure(chunks[..i]) && chunks[i].Response?
    ensures NoFailure(chunks[..i + 1]) && Run(chunks[..i + 1]) == OnResponse(Run(chunks[..i]), chunks[i])
  {
    assert chunks[..i + 1] == chunks[..i] + [chunks[i]];
    RunSnoc(chunks[..i], chunks[i]);
  }

  // ---------------------------------------------------------------- events are well formed

  lemma {:induction false} SignedKeepsOpen(w: Wire, signatures: seq<Option<string>>)
    requires Open(w)
    ensures Open(Signed(w, signatures))
  {
    if signatures != [] { SignedKeepsOpen(w, signatures[..|signatures| - 1]); }
  }

  lemma ChunkKeepsOpen(s: ChatState, chunk: Chunk)
    requires Open(s.wire) && chunk.Response?
    ensures Open(OnResponse(s, chunk).wire)
  {
    var chosen := if chunk.choices != [] then OnChoice(s, chunk.choices[0]) else s;
    if chunk.choices != [] { ChoiceKeepsOpen(s, chunk.choices[0]); }
    if chunk.usage.Some? && SendUsage(chosen.wire, chunk.usage.value) != chosen.wire {
      SendKeepsOpen(chosen.wire, Usage(chunk.usage.value));
    }
  }

  lemma ChoiceKeepsOpen(s: ChatState, c: Choice)
    requires Open(s.wire)
    ensures Open(OnChoice(s, c).wire)
  {
    if c.delta.Some? {
      DeltaKeepsOpen(s, c.delta.value);
      FinishKeepsOpen(OnDelta(s, c.delta.value), Value(c.finishReason));
    } else {
      FinishKeepsOpen(s, Value(c.finishReason));
    }
  }

  lemma FinishKeepsOpen(s: ChatState, reason: string)
    requires Open(s.wire)
    ensures Open(OnFinish(s, reason).wire)
  {
    if reason == "stop" { ClosedKeepsOpen(s.wire); }
  }

  lemma DeltaKeepsOpen(s: ChatState, d: Delta)
    requires Open(s.wire)
    ensures Open(OnDelta(s, d).wire)
  {
    ClosedKeepsOpen(s.wire);
    if Value(d.content) != "" { SendKeepsOpen(Closed(s.wire), Text(Value(d.content))); }
    var texted := OnContent(s.wire, Value(d.content));
    SendReasoningKeepsOpen(texted, Value(d.reasoning));
    SignedKeepsOpen(SendReasoning(texted, Value(d.reasoning)), d.signatures);
  }

  lemma {:induction false} RunIsOpen(chunks: seq<Chunk>)
    requires NoFailure(chunks)
    ensures Open(Run(chunks).wire)
  {
    if chunks != [] {
      var n := |chunks| - 1;
      RunIsOpen(chunks[..n]);
      ChunkKeepsOpen(Run(chunks[..n]), chunks[n]);
    }
  }

  /** Every stream ends in exactly one terminal event, with its reasoning in order. */
  lemma ChatEventsAreWellFormed(chunks: seq<Chunk>)
    ensures WellFormed(ChatEvents(chunks))
  {
    var s := Run(Heard(chunks));
    RunIsOpen(Heard(chunks));
    TerminalFinishes(s.wire, Error);
    FinishedIsWellFormed(s);
  }

  lemma FinishedIsWellFormed(s: ChatState)
    requires Open(s.wire)
    ensures WellFormed(Finished(s))
  {
    if s.toolCalls != [] {
      TerminalFinishes(s.wire, ToolCalls(s.toolCalls));
    } else {
      ClosedKeepsOpen(s.wire);
      var calls := Flush(s.buffers, true);
      var last := if calls != [] then ToolCalls(calls) else End;
      TerminalFinishes(Closed(s.wire), last);
    }
  }

  // ---------------------------------------------------------------- nothing said is lost

  function ChosenDelta(chunk: Chunk): Option<Delta> {
    if chunk.Response? && chunk.choices != [] then chunk.choices[0].delta else None
  }

  function Finish(chunk: Chunk): string {
    if chunk.Response? && chunk.choices != [] then Value(chunk.choices[0].finishReason) else ""
  }

  function ContentOf(chunk: Chunk): string {
    if ChosenDelta(chunk).Some? then Value(ChosenDelta(chunk).value.content) else ""
  }

  function ThoughtOf(chunk: Chunk): string {
    if ChosenDelta(chunk).Some? then Value(ChosenDelta(chunk).value.reasoning) else ""
  }

  function DeltasOf(chunk: Chunk): seq<ToolCallDelta> {
    if ChosenDelta(chunk).Some? then ChosenDelta(chunk).value.toolCalls else []
  }

  function Contents(chunks: seq<Chunk>): string {
    if chunks == [] then "" else Contents(chunks[..|chunks| - 1]) + ContentOf(chunks[|chunks| - 1])
  }

  function Thoughts(chunks: seq<Chunk>): string {
    if chunks == [] then "" else Thoughts(chunks[..|chunks| - 1]) + ThoughtOf(chunks[|chunks| - 1])
  }

  lemma {:induction false} SignedOnlySigns(w: Wire, signatures: seq<Option<string>>)
    ensures Signed(w, signatures).sent == w.sent
    ensures Signed(w, signatures).reasoning.buffer == w.reasoning.buffer
    ensures Signed(w, signatures).reasoning.complete == w.reasoning.complete
  {
    if signatures != [] { SignedOnlySigns(w, signatures[..|signatures| - 1]); }
  }

  lemma DeltaText(s: ChatState, d: Delta)
    ensures TextOf(OnDelta(s, d).wire.sent) == TextOf(s.wire.sent) + Value(d.content)
    ensures OnDelta(s, d).wire.reasoning.buffer == s.wire.reasoning.buffer + Value(d.reasoning)
    ensures OnDelta(s, d).wire.reasoning.complete <==>
            s.wire.reasoning.complete || (Value(d.content) != "" && s.wire.reasoning.buffer != "")
  {
    var texted := OnContent(s.wire, Value(d.content));
    ContentText(s.wire, Value(d.content));
    ThoughtText(texted, Value(d.reasoning));
    SignedOnlySigns(SendReasoning(texted, Value(d.reasoning)), d.signatures);
  }

  lemma ChunkText(s: ChatState, chunk: Chunk)
    requires chunk.Response?
    ensures TextOf(OnResponse(s, chunk).wire.sent) == TextOf(s.wire.sent) + ContentOf(chunk)
    ensures OnResponse(s, chunk).wire.reasoning.buffer == s.wire.reasoning.buffer + ThoughtOf(chunk)
  {
    var chosen := if chunk.choices != [] then OnChoice(s, chunk.choices[0]) else s;
    if chunk.choices != [] { ChoiceText(s, chunk.choices[0]); }
    if chunk.usage.Some? { UsageText(chosen.wire, chunk.usage.value); }
  }

  lemma ChoiceText(s: ChatState, c: Choice)
    ensures var d := c.delta;
            && TextOf(OnChoice(s, c).wire.sent) == TextOf(s.wire.sent) + (if d.Some? then Value(d.value.content) else "")
            && OnChoice(s, c).wire.reasoning.buffer == s.wire.reasoning.buffer + if d.Some? then Value(d.value.reasoning) else ""
  {
    if c.delta.Some? {
      DeltaText(s, c.delta.value);
      FinishText(OnDelta(s, c.delta.value), Value(c.finishReason));
    } else {
      FinishText(s, Value(c.finishReason));
      assert TextOf(s.wire.sent) + "" == TextOf(s.wire.sent);
      assert s.wire.reasoning.buffer + "" == s.wire.reasoning.buffer;
    }
  }

  lemma FinishText(s: ChatState, reason: string)
    ensures TextOf(OnFinish(s, reason).wire.sent) == TextOf(s.wire.sent)
    ensures OnFinish(s, reason).wire.reasoning.buffer == s.wire.reasoning.buffer
  {
    if reason == "stop" { ClosedText(s.wire); }
  }

  lemma {:induction false} RunText(chunks: seq<Chunk>)
    requires NoFailure(chunks)
    ensures TextOf(Run(chunks).wire.sent) == Contents(chunks)
    ensures Run(chunks).wire.reasoning.buffer == Thoughts(chunks)
  {
    if chunks != [] {
      var n := |chunks| - 1;
      RunText(chunks[..n]);
      ChunkText(Run(chunks[..n]), chunks[n]);
    }
  }

  /** The reader gets exactly the text and the reasoning of the chunks before a failure. */
  lemma TextAndReasoningArrive(chunks: seq<Chunk>)
    ensures TextOf(ChatEvents(chunks)) == Contents(Heard(chunks))
    ensures ReasoningOf(ChatEvents(chunks)) == Thoughts(Heard(chunks))
  {
    var s := Run(Heard(chunks));
    RunText(Heard(chunks));
    RunIsOpen(Heard(chunks));
    LastText(s.wire, Error);
    FinishedText(s);
  }

  lemma FinishedText(s: ChatState)
    requires Open(s.wire)
    ensures TextOf(Finished(s)) == TextOf(s.wire.sent)
    ensures ReasoningOf(Finished(s)) == s.wire.reasoning.buffer
  {
    ClosedKeepsOpen(s.wire);
    ClosedText(s.wire);
    LastText(s.wire, ToolCalls(s.toolCalls));
    var calls := Flush(s.buffers, true);
    LastText(Closed(s.wire), if calls != [] then ToolCalls(calls) else End);
  }

  // ---------------------------------------------------------------- deltas reach their call

  /** All tool-call deltas, in the order they came. */
  function AllDeltas(chunks: seq<Chunk>): seq<ToolCallDelta> {
    if chunks == [] then [] else AllDeltas(chunks[..|chunks| - 1]) + DeltasOf(chunks[|chunks| - 1])
  }

  predicate HasIndex(deltas: seq<ToolCallDelta>, index: int) {
    exists i :: 0 <= i < |deltas| && deltas[i].index == index
  }

  /** The arguments of the deltas with this index, joined in order. */
  function Arguments(deltas: seq<ToolCallDelta>, index: int): string {
    if deltas == [] then ""
    else
      var d := deltas[|deltas| - 1];
      Arguments(deltas[..|deltas| - 1], index) + if d.index == index then d.arguments else ""
  }

  /** The last ID that a delta with this index gives. */
  function LastId(deltas: seq<ToolCallDelta>, index: int): string {
    if deltas == [] then ""
    else
      var d := deltas[|deltas| - 1];
      if d.index == index && d.id.Some? then d.id.value else LastId(deltas[..|deltas| - 1], index)
  }

  function LastName(deltas: seq<ToolCallDelta>, index: int): string {
    if deltas == [] then ""
    else
      var d := deltas[|deltas| - 1];
      if d.index == index && d.name.Some? then d.name.value else LastName(deltas[..|deltas| - 1], index)
  }

  lemma {:induction false} CollectedAppends(buffers: Buffers<int>, a: seq<ToolCallDelta>, b: seq<ToolCallDelta>)
    ensures CollectsInTurn(buffers, a, b)
  {
    if b == [] {
      assert a + [] == a;
    } else {
      var front, last := b[..|b| - 1], b[|b| - 1];
      assert b == front + [last];
      CollectedAppends(buffers, a, front);
      CollectedAppendsOne(buffers, a, front, last);
    }
  }

  predicate CollectsInTurn(buffers: Buffers<int>, a: seq<ToolCallDelta>, b: seq<ToolCallDelta>) {
    Collected(buffers, a + b) == Collected(Collected(buffers, a), b)
  }

  lemma CollectedAppendsOne(buffers: Buffers<int>, a: seq<ToolCallDelta>, b: seq<ToolCallDelta>, d: ToolCallDelta)
    requires CollectsInTurn(buffers, a, b)
    ensures CollectsInTurn(buffers, a, b + [d])
  {
    CollectedSnoc(buffers, a + b, d);
    CollectedSnoc(Collected(buffers, a), b, d);
    assert a + (b + [d]) == (a + b) + [d];
  }

  lemma HasIndexSnoc(deltas: seq<ToolCallDelta>, index: int)
    requires deltas != []
    ensures var n := |deltas| - 1; HasIndex(deltas, index) <==> HasIndex(deltas[..n], index) || deltas[n].index == index
  {
    var n := |deltas| - 1;
    if i :| 0 <= i < n && deltas[i].index == index { assert deltas[..n][i].index == index; }
  }

  /** A call is made of the deltas of its index. */
  predicate MadeOf(buffers: Buffers<int>, deltas: seq<ToolCallDelta>, index: int) {
    && (index in buffers <==> HasIndex(deltas, index))
    && (index in buffers ==>
          buffers[index] == ToolCallBuffer(LastId(deltas, index), LastName(deltas, index), Arguments(deltas, index)))
    && (index !in buffers ==> LastId(deltas, index) == LastName(deltas, index) == Arguments(deltas, index) == "")
  }

  lemma {:induction false} CollectedIsRouted(deltas: seq<ToolCallDelta>, index: int)
    ensures MadeOf(Collected(map[], deltas), deltas, index)
  {
    if deltas != [] {
      CollectedIsRouted(deltas[..|deltas| - 1], index);
      OneMoreRouted(Collected(map[], deltas[..|deltas| - 1]), deltas, index);
    }
  }

  lemma OneMoreRouted(buffers: Buffers<int>, deltas: seq<ToolCallDelta>, index: int)
    requires deltas != [] && MadeOf(buffers, deltas[..|deltas| - 1], index)
    ensures MadeOf(CollectedOne(buffers, deltas[|deltas| - 1]), deltas, index)
  {
    HasIndexSnoc(deltas, index);
  }

  lemma {:induction false} RunCollects(chunks: seq<Chunk>)
    requires NoFailure(chunks)
    ensures Run(chunks).buffers == Collected(map[], AllDeltas(chunks))
  {
    if chunks != [] {
      var n := |chunks| - 1;
      RunCollects(chunks[..n]);
      ChunkCollects(Run(chunks[..n]), chunks[n]);
      CollectedAppends(map[], AllDeltas(chunks[..n]), DeltasOf(chunks[n]));
    }
  }

  /** Every delta lands in the call of its index, and a call is made of its own deltas only,
      however the calls are interleaved: its arguments are theirs, joined in order, and its ID and
      name the last ones they give. */
  lemma DeltasReachTheirCall(chunks: seq<Chunk>, index: int)
    requires NoFailure(chunks)
    ensures var deltas := AllDeltas(chunks);
            && (index in Run(chunks).buffers <==> HasIndex(deltas, index))
            && (index in Run(chunks).buffers ==>
                  && Run(chunks).buffers[index].id == LastId(deltas, index)
                  && Run(chunks).buffers[index].name == LastName(deltas, index)
                  && Run(chunks).buffers[index].arguments == Arguments(deltas, index))
  {
    RunCollects(chunks);
    CollectedIsRouted(AllDeltas(chunks), index);
  }

  // ---------------------------------------------------------------- reasoning left open

  predicate Thinks(chunk: Chunk) {
    ThoughtOf(chunk) != ""
  }

  /** Reasoning is over when text comes after it, or a stop at or after it. */
  predicate Closes(chunks: seq<Chunk>, k: nat)
    requires k < |chunks|
  {
    exists j :: 0 <= j <= k && Thinks(chunks[j]) &&
                ((j < k && ContentOf(chunks[k]) != "") || Finish(chunks[k]) == "stop")
  }

  /** Some reasoning came, and nothing that closes it. */
  predicate LeavesReasoningOpen(chunks: seq<Chunk>) {
    && (exists j :: 0 <= j < |chunks| && Thinks(chunks[j]))
    && (forall k :: 0 <= k < |chunks| ==> !Closes(chunks, k))
  }

  /** A finish reason said tool_calls when some tool call had begun. */
  predicate FinishesInToolCalls(chunks: seq<Chunk>) {
    exists j, k :: 0 <= j <= k < |chunks| && DeltasOf(chunks[j]) != [] && Finish(chunks[k]) == "tool_calls"
  }

  lemma ChunkCloses(s: ChatState, chunk: Chunk)
    requires chunk.Response?
    ensures var r := s.wire.reasoning;
            var r' := OnResponse(s, chunk).wire.reasoning;
            && (r'.buffer != "" <==> r.buffer != "" || Thinks(chunk))
            && (r'.complete <==>
                  || r.complete
                  || (r.buffer != "" && ContentOf(chunk) != "")
                  || (r'.buffer != "" && Finish(chunk) == "stop"))
  {
    var chosen := if chunk.choices != [] then OnChoice(s, chunk.choices[0]) else s;
    if chunk.choices != [] { ChoiceCloses(s, chunk.choices[0]); }
    if chunk.usage.Some? { UsageText(chosen.wire, chunk.usage.value); }
  }

  lemma ChoiceCloses(s: ChatState, c: Choice)
    ensures var r := s.wire.reasoning;
            var r' := OnChoice(s, c).wire.reasoning;
            && (r'.buffer != "" <==> r.buffer != "" || (c.delta.Some? && Value(c.delta.value.reasoning) != ""))
            && (r'.complete <==>
                  || r.complete
                  || (r.buffer != "" && c.delta.Some? && Value(c.delta.value.content) != "")
                  || (r'.buffer != "" && Value(c.finishReason) == "stop"))
  {
    if c.delta.Some? { DeltaText(s, c.delta.value); }
  }

  predicate HasThought(chunks: seq<Chunk>) {
    exists j :: 0 <= j < |chunks| && Thinks(chunks[j])
  }

  predicate HasClosing(chunks: seq<Chunk>) {
    exists k :: 0 <= k < |chunks| && Closes(chunks, k)
  }

  lemma ThoughtSnoc(chunks: seq<Chunk>)
    requires chunks != []
    ensures HasThought(chunks) <==> HasThought(chunks[..|chunks| - 1]) || Thinks(chunks[|chunks| - 1])
  {
    var before := chunks[..|chunks| - 1];
    if HasThought(before) {
      var j :| 0 <= j < |before| && Thinks(before[j]);
      assert Thinks(chunks[j]);
    }
    if j :| 0 <= j < |chunks| && Thinks(chunks[j]) && j < |chunks| - 1 { assert Thinks(before[j]); }
  }

  lemma ClosingSnoc(chunks: seq<Chunk>)
    requires chunks != []
    ensures var n := |chunks| - 1;
            HasClosing(chunks) <==>
              || HasClosing(chunks[..n])
              || (HasThought(chunks[..n]) && ContentOf(chunks[n]) != "")
              || (HasThought(chunks) && Finish(chunks[n]) == "stop")
  {
    var n := |chunks| - 1;
    var before := chunks[..n];
    forall k | 0 <= k < n ensures Closes(chunks, k) <==> Closes(before, k) {
      forall j | 0 <= j <= k ensures chunks[j] == before[j] { }
    }
    if HasClosing(before) {
      var k :| 0 <= k < n && Closes(before, k);
      assert Closes(chunks, k);
    }
    LastCloses(chunks);
  }

  lemma LastCloses(chunks: seq<Chunk>)
    requires chunks != []
    ensures var n := |chunks| - 1;
            Closes(chunks, n) <==>
              (HasThought(chunks[..n]) && ContentOf(chunks[n]) != "") || (HasThought(chunks) && Finish(chunks[n]) == "stop")
  {
    var n := |chunks| - 1;
    var before := chunks[..n];
    if HasThought(before) && ContentOf(chunks[n]) != "" {
      var j :| 0 <= j < n && Thinks(before[j]);
      assert Thinks(chunks[j]);
    }
    if j :| 0 <= j < n && Thinks(chunks[j]) { assert Thinks(before[j]); }
  }

  lemma {:induction false} RunCloses(chunks: seq<Chunk>)
    requires NoFailure(chunks)
    ensures Run(chunks).wire.reasoning.buffer != "" <==> HasThought(chunks)
    ensures Run(chunks).wire.reasoning.complete <==> HasClosing(chunks)
  {
    if chunks != [] {
      var n := |chunks| - 1;
      RunCloses(chunks[..n]);
      ChunkCloses(Run(chunks[..n]), chunks[n]);
      ThoughtSnoc(chunks);
      ClosingSnoc(chunks);
    }
  }

  lemma {:induction false} CollectedIsEmpty(buffers: Buffers<int>, deltas: seq<ToolCallDelta>)
    ensures Collected(buffers, deltas) == map[] <==> buffers == map[] && deltas == []
  {
    if deltas != [] { assert deltas[|deltas| - 1].index in Collected(buffers, deltas); }
  }

  predicate HasDelta(chunks: seq<Chunk>) {
    exists j :: 0 <= j < |chunks| && DeltasOf(chunks[j]) != []
  }

  lemma DeltaSnoc(chunks: seq<Chunk>)
    requires chunks != []
    ensures var n := |chunks| - 1;
            && (HasDelta(chunks) <==> HasDelta(chunks[..n]) || DeltasOf(chunks[n]) != [])
            && (FinishesInToolCalls(chunks) <==>
                  FinishesInToolCalls(chunks[..n]) || (HasDelta(chunks) && Finish(chunks[n]) == "tool_calls"))
  {
    var n := |chunks| - 1;
    var before := chunks[..n];
    forall j | 0 <= j < n ensures chunks[j] == before[j] { }
    if HasDelta(before) {
      var j :| 0 <= j < n && DeltasOf(before[j]) != [];
      assert DeltasOf(chunks[j]) != [];
    }
    if FinishesInToolCalls(before) {
      var j, k :| 0 <= j <= k < n && DeltasOf(before[j]) != [] && Finish(before[k]) == "tool_calls";
      assert DeltasOf(chunks[j]) != [] && Finish(chunks[k]) == "tool_calls";
    }
  }

  lemma ChunkCollects(s: ChatState, chunk: Chunk)
    requires chunk.Response?
    ensures var s' := OnResponse(s, chunk);
            && s'.buffers == Collected(s.buffers, DeltasOf(chunk))
            && s'.toolCalls == if Finish(chunk) == "tool_calls" then Flush(s'.buffers, false) else s.toolCalls
  {
  }

  lemma {:induction false} RunFinishes(chunks: seq<Chunk>)
    requires NoFailure(chunks)
    ensures Run(chunks).buffers == map[] <==> !HasDelta(chunks)
    ensures Run(chunks).toolCalls != [] <==> FinishesInToolCalls(chunks)
  {
    if chunks != [] {
      var n := |chunks| - 1;
      RunFinishes(chunks[..n]);
      DeltaSnoc(chunks);
      ChunkCollects(Run(chunks[..n]), chunks[n]);
      CollectedIsEmpty(Run(chunks[..n]).buffers, DeltasOf(chunks[n]));
    }
  }

  // ---------------------------------------------------------------- reasoning that is lost

  /** The chunk thinks after reasoning was closed: by an earlier chunk, or by its own text. */
  predicate LateAt(chunks: seq<Chunk>, m: nat)
    requires m < |chunks|
  {
    Thinks(chunks[m]) && (HasClosing(chunks[..m]) || (HasThought(chunks[..m]) && ContentOf(chunks[m]) != ""))
  }

  predicate HasLateThought(chunks: seq<Chunk>) {
    exists m :: 0 <= m < |chunks| && LateAt(chunks, m)
  }

  lemma LateSnoc(chunks: seq<Chunk>)
    requires chunks != []
    ensures HasLateThought(chunks) <==> HasLateThought(chunks[..|chunks| - 1]) || LateAt(chunks, |chunks| - 1)
  {
    var n := |chunks| - 1;
    var before := chunks[..n];
    forall m | 0 <= m < n ensures LateAt(before, m) <==> LateAt(chunks, m) { assert before[..m] == chunks[..m]; }
    if HasLateThought(before) {
      var m :| 0 <= m < n && LateAt(before, m);
      assert LateAt(chunks, m);
    }
  }

  lemma SignedTracks(w: Wire, signatures: seq<Option<string>>)
    requires Tracks(w)
    ensures Tracks(Signed(w, signatures)) && (Late(Signed(w, signatures)) <==> Late(w))
  {
    SignedOnlySigns(w, signatures);
  }

  lemma DeltaTracks(s: ChatState, d: Delta)
    requires Tracks(s.wire)
    ensures var w, w' := s.wire, OnDelta(s, d).wire;
            && Tracks(w')
            && (Late(w') <==>
                  || Late(w)
                  || (Value(d.reasoning) != "" && (w.reasoning.complete || (w.reasoning.buffer != "" && Value(d.content) != ""))))
  {
    var texted := OnContent(s.wire, Value(d.content));
    TextTracks(s.wire, Value(d.content));
    ContentText(s.wire, Value(d.content));
    ThoughtTracks(texted, Value(d.reasoning));
    SignedTracks(SendReasoning(texted, Value(d.reasoning)), d.signatures);
  }

  lemma ChoiceTracks(s: ChatState, c: Choice)
    requires Tracks(s.wire)
    ensures var after := if c.delta.Some? then OnDelta(s, c.delta.value) else s;
            Tracks(OnChoice(s, c).wire) && (Late(OnChoice(s, c).wire) <==> Late(after.wire))
  {
    if c.delta.Some? { DeltaTracks(s, c.delta.value); }
    ClosedTracks(if c.delta.Some? then OnDelta(s, c.delta.value).wire else s.wire);
  }

  lemma ChunkTracks(s: ChatState, chunk: Chunk)
    requires chunk.Response? && Tracks(s.wire)
    ensures var w, w' := s.wire, OnResponse(s, chunk).wire;
            && Tracks(w')
            && (Late(w') <==>
                  || Late(w)
                  || (Thinks(chunk) && (w.reasoning.complete || (w.reasoning.buffer != "" && ContentOf(chunk) != ""))))
  {
    if chunk.choices != [] {
      ChoiceTracks(s, chunk.choices[0]);
      if ChosenDelta(chunk).Some? { DeltaTracks(s, ChosenDelta(chunk).value); }
    }
    var chosen := if chunk.choices != [] then OnChoice(s, chunk.choices[0]) else s;
    if chunk.usage.Some? { UsageTracks(chosen.wire, chunk.usage.value); }
  }

  lemma {:induction false} RunTracks(chunks: seq<Chunk>)
    requires NoFailure(chunks)
    ensures Tracks(Run(chunks).wire) && (Late(Run(chunks).wire) <==> HasLateThought(chunks))
  {
    if chunks != [] {
      var n := |chunks| - 1;
      RunTracks(chunks[..n]);
      RunCloses(chunks[..n]);
      ChunkTracks(Run(chunks[..n]), chunks[n]);
      LateSnoc(chunks);
    }
  }

  /** Reasoning is lost, that is, sent and in no reasoning end, exactly when some of it came
      after it had been closed, or when it was still open and the stream failed or finished in
      tool calls, since these paths return before reasoning is ended. */
  lemma ReasoningIsLostExactly(chunks: seq<Chunk>)
    ensures var heard := Heard(chunks);
            !ReasoningComplete(ChatEvents(chunks)) <==>
            || HasLateThought(heard)
            || (LeavesReasoningOpen(heard) && (heard != chunks || FinishesInToolCalls(heard)))
  {
    var heard := Heard(chunks);
    var s := Run(heard);
    RunIsOpen(heard);
    RunCloses(heard);
    RunTracks(heard);
    RunFinishes(heard);
    if heard != chunks { CompleteWhenEnded(s.wire, Error); }
    else { FinishedIsComplete(s); }
  }

  lemma FinishedIsComplete(s: ChatState)
    requires Open(s.wire) && Tracks(s.wire)
    ensures ReasoningComplete(Finished(s)) <==>
            s.wire.reasoning.buffer == "" || (!Late(s.wire) && (s.wire.reasoning.complete || s.toolCalls == []))
  {
    ClosedKeepsOpen(s.wire);
    ClosedTracks(s.wire);
    CompleteWhenEnded(s.wire, ToolCalls(s.toolCalls));
    var calls := Flush(s.buffers, true);
    CompleteWhenEnded(Closed(s.wire), if calls != [] then ToolCalls(calls) else End);
  }

  function OnlyText(text: string): Chunk {
    Response([Choice(Some(Delta(Some(text), None, [], [])), None)], None)
  }

  function OnlyThought(thought: string): Chunk {
    Response([Choice(Some(Delta(None, Some(thought), [], [])), None)], None)
  }

  lemma RunSnoc(chunks: seq<Chunk>, chunk: Chunk)
    requires NoFailure(chunks) && chunk.Response?
    ensures NoFailure(chunks + [chunk]) && Run(chunks + [chunk]) == OnResponse(Run(chunks), chunk)
  {
    assert (chunks + [chunk])[..|chunks|] == chunks;
  }

  /** A state in which only text and reasoning were sent. */
  function Talked(sent: Events, reasoning: Reasoning): ChatState {
    ChatState(Wire(sent, reasoning), map[], [])
  }

  lemma AfterThought(sent: Events, r: Reasoning, thought: string)
    requires thought != ""
    ensures OnResponse(Talked(sent, r), OnlyThought(thought)) ==
            Talked(sent + [ReasoningDelta(thought)], r.(buffer := r.buffer + thought))
  {
  }

  lemma AfterText(sent: Events, r: Reasoning, text: string)
    requires text != "" && Unsent(r)
    ensures OnResponse(Talked(sent, r), OnlyText(text)) ==
            Talked(sent + [ReasoningEnd(r.buffer, r.signature)] + [Text(text)], r.(complete := true))
  {
  }

  /** Thoughts, text, and thoughts again: the second thoughts are in no reasoning end, and no
      tool call is involved. */
  lemma SecondThoughtsAreLost(first: string, text: string, second: string)
    requires first != "" && text != "" && second != ""
    ensures var chunks := [OnlyThought(first)] + [OnlyText(text)] + [OnlyThought(second)];
            && ChatEvents(chunks) == [ReasoningDelta(first), ReasoningEnd(first, ""), Text(text), ReasoningDelta(second), End]
            && HasLateThought(Heard(chunks)) && !ReasoningComplete(ChatEvents(chunks))
  {
    var chunks := [OnlyThought(first)] + [OnlyText(text)] + [OnlyThought(second)];
    SecondThoughtsRun(first, text, second);
    HeardAll(chunks);
    NothingToFlush();
    SecondThoughtsAreLate(first, text, second);
    ReasoningIsLostExactly(chunks);
  }

  lemma SecondThoughtsRun(first: string, text: string, second: string)
    requires first != "" && text != "" && second != ""
    ensures var chunks := [OnlyThought(first)] + [OnlyText(text)] + [OnlyThought(second)];
            && NoFailure(chunks)
            && Run(chunks) == Talked([ReasoningDelta(first), ReasoningEnd(first, ""), Text(text), ReasoningDelta(second)],
                                     Reasoning(first + second, "", true))
  {
    var a, x, b := OnlyThought(first), OnlyText(text), OnlyThought(second);
    RunSnoc([], a);
    assert [] + [a] == [a] && "" + first == first;
    AfterThought([], NO_REASONING, first);
    RunSnoc([a], x);
    AfterText([ReasoningDelta(first)], Reasoning(first, "", false), text);
    RunSnoc([a] + [x], b);
    AfterThought([ReasoningDelta(first), ReasoningEnd(first, ""), Text(text)], Reasoning(first, "", true), second);
  }

  lemma SecondThoughtsAreLate(first: string, text: string, second: string)
    requires first != "" && text != "" && second != ""
    ensures HasLateThought([OnlyThought(first)] + [OnlyText(text)] + [OnlyThought(second)])
  {
    var chunks := [OnlyThought(first)] + [OnlyText(text)] + [OnlyThought(second)];
    var before := chunks[..2];
    assert before[0] == OnlyThought(first) && before[1] == OnlyText(text) && chunks[2] == OnlyThought(second);
    assert Thinks(before[0]) && Closes(before, 1);
    assert LateAt(chunks, 2);
  }

  lemma NothingToFlush()
    ensures Flush(map[], true) == []
  {
    IntOrder();
    EmptyWhenNone(SortedKeys({}, IntLess));
  }

  /** The calls of the last tool_calls finish are those whose deltas came up to it: later
      deltas are ignored. */
  ghost function CallsAtLastFinish(chunks: seq<Chunk>): seq<ToolCall> {
    if chunks == [] then []
    else if Finish(chunks[|chunks| - 1]) == "tool_calls" then Flush(Collected(map[], AllDeltas(chunks)), false)
    else CallsAtLastFinish(chunks[..|chunks| - 1])
  }

  lemma {:induction false} LastFinishDecidesTheCalls(chunks: seq<Chunk>)
    requires NoFailure(chunks)
    ensures Run(chunks).toolCalls == CallsAtLastFinish(chunks)
  {
    if chunks != [] {
      var n := |chunks| - 1;
      LastFinishDecidesTheCalls(chunks[..n]);
      RunCollects(chunks);
      ChunkCollects(Run(chunks[..n]), chunks[n]);
    }
  }

  // ---------------------------------------------------------------- the calls that are emitted

  /** The calls made of these deltas, in the order of their indexes. */
  ghost predicate CallsOfDeltas(calls: seq<ToolCall>, indexes: seq<int>, deltas: seq<ToolCallDelta>, requireName: bool) {
    && (forall i, j :: 0 <= i < j < |indexes| ==> indexes[i] < indexes[j])
    && (forall k :: k in indexes <==> HasIndex(deltas, k) && (requireName ==> LastName(deltas, k) != ""))
    && |calls| == |indexes|
    && (forall i :: 0 <= i < |indexes| ==> IsCallOfIndex(calls[i], i, deltas, indexes[i]))
  }

  predicate IsCallOfIndex(call: ToolCall, i: nat, deltas: seq<ToolCallDelta>, index: int) {
    && call.name == LastName(deltas, index)
    && call.arguments == (if Arguments(deltas, index) == "" then "{}" else Arguments(deltas, index))
    && call.id == (if LastId(deltas, index) == "" && call.name != "" then Minted(i) else Given(LastId(deltas, index)))
  }

  ghost predicate Emits(e: Event, deltas: seq<ToolCallDelta>, requireName: bool) {
    e.ToolCalls? && exists indexes :: CallsOfDeltas(e.calls, indexes, deltas, requireName)
  }

  lemma FlushOfDeltas(deltas: seq<ToolCallDelta>, requireName: bool) returns (indexes: seq<int>)
    ensures CallsOfDeltas(Flush(Collected(map[], deltas), requireName), indexes, deltas, requireName)
  {
    var buffers := Collected(map[], deltas);
    IntOrder();
    indexes := FlushMakesTheCalls(buffers, requireName, IntLess);
    forall k ensures MadeOf(buffers, deltas, k) { CollectedIsRouted(deltas, k); }
    forall k ensures k in indexes <==> HasIndex(deltas, k) && (requireName ==> LastName(deltas, k) != "") {
      assert MadeOf(buffers, deltas, k);
    }
    forall i | 0 <= i < |indexes| ensures IsCallOfIndex(Flush(buffers, requireName)[i], i, deltas, indexes[i]) {
      assert MadeOf(buffers, deltas, indexes[i]);
    }
    forall i, j | 0 <= i < j < |indexes| ensures indexes[i] < indexes[j] { assert IntLess(indexes[i], indexes[j]); }
  }

  /** Chunk k is the last one that finishes in tool calls. */
  predicate LastToolFinish(chunks: seq<Chunk>, k: nat) {
    && k < |chunks| && Finish(chunks[k]) == "tool_calls"
    && forall j :: k < j < |chunks| ==> Finish(chunks[j]) != "tool_calls"
  }

  lemma {:induction false} CallsAtTheLastFinish(chunks: seq<Chunk>, k: nat)
    requires LastToolFinish(chunks, k)
    ensures DecidedAt(chunks, k)
  {
    if k == |chunks| - 1 {
      assert chunks[..k + 1] == chunks;
    } else {
      FinishStaysLast(chunks, k);
      CallsAtTheLastFinish(chunks[..|chunks| - 1], k);
      DecidedLater(chunks, k);
    }
  }

  ghost predicate DecidedAt(chunks: seq<Chunk>, k: nat)
    requires k < |chunks|
  {
    CallsAtLastFinish(chunks) == FlushedUpTo(chunks, k)
  }

  lemma FinishStaysLast(chunks: seq<Chunk>, k: nat)
    requires LastToolFinish(chunks, k) && k < |chunks| - 1
    ensures LastToolFinish(chunks[..|chunks| - 1], k)
  {
  }

  lemma DecidedLater(chunks: seq<Chunk>, k: nat)
    requires LastToolFinish(chunks, k) && k < |chunks| - 1 && DecidedAt(chunks[..|chunks| - 1], k)
    ensures DecidedAt(chunks, k)
  {
    FlushedEarlier(chunks, k);
  }

  ghost function FlushedUpTo(chunks: seq<Chunk>, k: nat): seq<ToolCall>
    requires k < |chunks|
  {
    Flush(Collected(map[], AllDeltas(chunks[..k + 1])), false)
  }

  lemma FlushedEarlier(chunks: seq<Chunk>, k: nat)
    requires k < |chunks| - 1
    ensures FlushedUpTo(chunks[..|chunks| - 1], k) == FlushedUpTo(chunks, k)
  {
    assert chunks[..|chunks| - 1][..k + 1] == chunks[..k + 1];
  }

  lemma {:induction false} NoFinishNoCalls(chunks: seq<Chunk>)
    requires forall k :: 0 <= k < |chunks| ==> Finish(chunks[k]) != "tool_calls"
    ensures CallsAtLastFinish(chunks) == []
  {
    if chunks != [] { NoFinishNoCalls(chunks[..|chunks| - 1]); }
  }

  lemma {:induction false} SomeLastToolFinish(chunks: seq<Chunk>, j: nat) returns (k: nat)
    requires j < |chunks| && Finish(chunks[j]) == "tool_calls"
    ensures LastToolFinish(chunks, k)
  {
    var n := |chunks| - 1;
    if Finish(chunks[n]) == "tool_calls" { return n; }
    k := SomeLastToolFinish(chunks[..n], j);
  }

  /** The calls of the last finish in tool calls, if there were any deltas by then. */
  lemma FinishedCallsAreEmitted(chunks: seq<Chunk>, k: nat)
    requires NoFailure(chunks) && LastToolFinish(chunks, k) && AllDeltas(chunks[..k + 1]) != []
    ensures var events := ChatEvents(chunks); events != [] && Emits(events[|events| - 1], AllDeltas(chunks[..k + 1]), false)
  {
    var deltas := AllDeltas(chunks[..k + 1]);
    HeardAll(chunks);
    LastFinishDecidesTheCalls(chunks);
    CallsAtTheLastFinish(chunks, k);
    assert DecidedAt(chunks, k);
    var indexes := FlushOfDeltas(deltas, false);
    assert HasIndex(deltas, deltas[0].index);
    assert deltas[0].index in indexes;
  }

  /** Without one, the calls with a name that are pending when the stream ends, or none. */
  lemma PendingCallsAreEmitted(chunks: seq<Chunk>)
    requires NoFailure(chunks) && forall k :: LastToolFinish(chunks, k) ==> AllDeltas(chunks[..k + 1]) == []
    ensures var events := ChatEvents(chunks);
            && events != []
            && if exists index :: HasIndex(AllDeltas(chunks), index) && LastName(AllDeltas(chunks), index) != ""
               then Emits(events[|events| - 1], AllDeltas(chunks), true)
               else events[|events| - 1] == End
  {
    HeardAll(chunks);
    NothingAtTheLastFinish(chunks);
    RunCollects(chunks);
    var indexes := FlushOfDeltas(AllDeltas(chunks), true);
    PendingEmitted(Flush(Collected(map[], AllDeltas(chunks)), true), indexes, AllDeltas(chunks));
  }

  lemma PendingEmitted(calls: seq<ToolCall>, indexes: seq<int>, deltas: seq<ToolCallDelta>)
    requires CallsOfDeltas(calls, indexes, deltas, true)
    ensures calls != [] <==> exists index :: HasIndex(deltas, index) && LastName(deltas, index) != ""
    ensures calls != [] ==> Emits(ToolCalls(calls), deltas, true)
  {
    if index :| HasIndex(deltas, index) && LastName(deltas, index) != "" { assert index in indexes; }
    if calls != [] {
      assert indexes[0] in indexes;
      assert CallsOfDeltas(ToolCalls(calls).calls, indexes, deltas, true);
    }
  }

  lemma NothingAtTheLastFinish(chunks: seq<Chunk>)
    requires NoFailure(chunks) && forall k :: LastToolFinish(chunks, k) ==> AllDeltas(chunks[..k + 1]) == []
    ensures Run(chunks).toolCalls == []
  {
    LastFinishDecidesTheCalls(chunks);
    if j :| 0 <= j < |chunks| && Finish(chunks[j]) == "tool_calls" {
      var k := SomeLastToolFinish(chunks, j);
      CallsAtTheLastFinish(chunks, k);
      NothingToFlush();
    } else {
      NoFinishNoCalls(chunks);
    }
  }

  // ---------------------------------------------------------------- all events

  /** The last signature given that is not empty. */
  function LastGiven(signatures: seq<Option<string>>, before: string): string {
    if signatures == [] then before
    else
      var last := signatures[|signatures| - 1];
      if last.Some? && last.value != "" then last.value else LastGiven(signatures[..|signatures| - 1], before)
  }

  function LastSignature(chunks: seq<Chunk>): string {
    if chunks == [] then ""
    else
      var d := ChosenDelta(chunks[|chunks| - 1]);
      LastGiven(if d.Some? then d.value.signatures else [], LastSignature(chunks[..|chunks| - 1]))
  }

  function EndOf(chunks: seq<Chunk>): Event {
    ReasoningEnd(Thoughts(chunks), LastSignature(chunks))
  }

  /** What a chunk is answered with, after these: the reasoning is ended before the first text
      that follows it, or at a stop. */
  function Answer(before: seq<Chunk>, chunk: Chunk): Events
    requires chunk.Response?
  {
    var open := HasThought(before) && !HasClosing(before);
    var content, thought := ContentOf(chunk), ThoughtOf(chunk);
    (if content != "" && open then [EndOf(before)] else [])
    + (if content != "" then [Text(content)] else [])
    + (if thought != "" then [ReasoningDelta(thought)] else [])
    + (if Finish(chunk) == "stop" && !HasClosing(before) && (if HasThought(before) then content == "" else thought != "")
       then [EndOf(before + [chunk])] else [])
    + UsageEvents(chunk.usage)
  }

  function Answers(chunks: seq<Chunk>): Events
    requires NoFailure(chunks)
  {
    if chunks == [] then [] else Answers(chunks[..|chunks| - 1]) + Answer(chunks[..|chunks| - 1], chunks[|chunks| - 1])
  }

  lemma {:induction false} SignedIsLast(w: Wire, signatures: seq<Option<string>>)
    ensures Signed(w, signatures) == w.(reasoning := w.reasoning.(signature := LastGiven(signatures, w.reasoning.signature)))
  {
    if signatures != [] { SignedIsLast(w, signatures[..|signatures| - 1]); }
  }

  /** What the state of a stream says of the chunks so far. */
  ghost predicate Remembers(w: Wire, chunks: seq<Chunk>) {
    && w.reasoning.buffer == Thoughts(chunks)
    && w.reasoning.signature == LastSignature(chunks)
    && (w.reasoning.buffer != "" <==> HasThought(chunks))
    && (w.reasoning.complete <==> HasClosing(chunks))
  }

  lemma {:induction false} RunRemembers(chunks: seq<Chunk>)
    requires NoFailure(chunks)
    ensures Remembers(Run(chunks).wire, chunks)
  {
    RunText(chunks);
    RunCloses(chunks);
    RunSigns(chunks);
  }

  lemma {:induction false} RunSigns(chunks: seq<Chunk>)
    requires NoFailure(chunks)
    ensures Run(chunks).wire.reasoning.signature == LastSignature(chunks)
  {
    if chunks != [] {
      RunSigns(chunks[..|chunks| - 1]);
      ChunkSigns(Run(chunks[..|chunks| - 1]), chunks[|chunks| - 1]);
    }
  }

  lemma ChunkSigns(s: ChatState, chunk: Chunk)
    requires chunk.Response?
    ensures var d := ChosenDelta(chunk);
            OnResponse(s, chunk).wire.reasoning.signature ==
            LastGiven(if d.Some? then d.value.signatures else [], s.wire.reasoning.signature)
  {
    var d := ChosenDelta(chunk);
    if d.Some? { ContentSigns(s.wire, Value(d.value.content), Value(d.value.reasoning), d.value.signatures); }
  }

  lemma ContentSigns(w: Wire, content: string, reasoning: string, signatures: seq<Option<string>>)
    ensures Signed(SendReasoning(OnContent(w, content), reasoning), signatures).reasoning.signature ==
            LastGiven(signatures, w.reasoning.signature)
  {
    SignedIsLast(SendReasoning(OnContent(w, content), reasoning), signatures);
  }

  lemma DeltaSends(w: Wire, d: Delta)
    ensures var w' := Signed(SendReasoning(OnContent(w, Value(d.content)), Value(d.reasoning)), d.signatures);
            && w'.sent == w.sent
                 + (if Value(d.content) != "" && Unsent(w.reasoning) then [ReasoningEnd(w.reasoning.buffer, w.reasoning.signature)] else [])
                 + (if Value(d.content) != "" then [Text(Value(d.content))] else [])
                 + (if Value(d.reasoning) != "" then [ReasoningDelta(Value(d.reasoning))] else [])
            && w'.reasoning.buffer == w.reasoning.buffer + Value(d.reasoning)
            && (w'.reasoning.complete <==> w.reasoning.complete || (Value(d.content) != "" && w.reasoning.buffer != ""))
  {
    SignedIsLast(SendReasoning(OnContent(w, Value(d.content)), Value(d.reasoning)), d.signatures);
  }

  /** The wire after the first choice's delta, if there is one. */
  function AfterDelta(w: Wire, d: Option<Delta>): Wire {
    if d.Some? then Signed(SendReasoning(OnContent(w, Value(d.value.content)), Value(d.value.reasoning)), d.value.signatures) else w
  }

  lemma DeltaAnswers(w: Wire, chunk: Chunk)
    ensures var w' := AfterDelta(w, ChosenDelta(chunk));
            var content, thought := ContentOf(chunk), ThoughtOf(chunk);
            && w'.sent == w.sent
                 + (if content != "" && Unsent(w.reasoning) then [ReasoningEnd(w.reasoning.buffer, w.reasoning.signature)] else [])
                 + (if content != "" then [Text(content)] else [])
                 + (if thought != "" then [ReasoningDelta(thought)] else [])
            && w'.reasoning.buffer == w.reasoning.buffer + thought
            && (w'.reasoning.complete <==> w.reasoning.complete || (content != "" && w.reasoning.buffer != ""))
  {
    var d := ChosenDelta(chunk);
    if d.Some? {
      DeltaSends(w, d.value);
    } else {
      assert w.reasoning.buffer + "" == w.reasoning.buffer;
      assert w.sent + [] + [] + [] == w.sent;
    }
  }

  /** After the delta come the finish reason and the usage. */
  lemma ResponseSends(s: ChatState, chunk: Chunk)
    requires chunk.Response?
    ensures var w := AfterDelta(s.wire, ChosenDelta(chunk));
            var w' := if Finish(chunk) == "stop" then Closed(w) else w;
            OnResponse(s, chunk).wire == if chunk.usage.Some? then SendUsage(w', chunk.usage.value) else w'
  {
  }

  lemma ChunkAnswers(s: ChatState, before: seq<Chunk>, chunk: Chunk)
    requires chunk.Response? && Remembers(s.wire, before) && Remembers(OnResponse(s, chunk).wire, before + [chunk])
    ensures OnResponse(s, chunk).wire.sent == s.wire.sent + Answer(before, chunk)
  {
    ResponseSends(s, chunk);
    DeltaAnswers(s.wire, chunk);
    AnswerIsSent(s.wire, AfterDelta(s.wire, ChosenDelta(chunk)), OnResponse(s, chunk).wire, before, chunk);
  }

  lemma AnswerIsSent(w: Wire, w': Wire, w'': Wire, before: seq<Chunk>, chunk: Chunk)
    requires chunk.Response? && Remembers(w, before) && Remembers(w'', before + [chunk])
    requires w'.reasoning.buffer == w.reasoning.buffer + ThoughtOf(chunk)
    requires w'.reasoning.complete <==> w.reasoning.complete || (ContentOf(chunk) != "" && w.reasoning.buffer != "")
    requires w'.sent == w.sent
               + (if ContentOf(chunk) != "" && Unsent(w.reasoning) then [ReasoningEnd(w.reasoning.buffer, w.reasoning.signature)] else [])
               + (if ContentOf(chunk) != "" then [Text(ContentOf(chunk))] else [])
               + (if ThoughtOf(chunk) != "" then [ReasoningDelta(ThoughtOf(chunk))] else [])
    requires var closed := if Finish(chunk) == "stop" then Closed(w') else w';
             w'' == if chunk.usage.Some? then SendUsage(closed, chunk.usage.value) else closed
    ensures w''.sent == w.sent + Answer(before, chunk)
  {
    LastPartsSend(w', w'', Finish(chunk) == "stop", chunk.usage);
    AnswerParts(before, chunk, HasThought(before), HasClosing(before), EndOf(before), EndOf(before + [chunk]));
    var content, thought := ContentOf(chunk), ThoughtOf(chunk);
    FiveParts(w.sent,
      if content != "" && Unsent(w.reasoning) then [ReasoningEnd(w.reasoning.buffer, w.reasoning.signature)] else [],
      if content != "" then [Text(content)] else [], if thought != "" then [ReasoningDelta(thought)] else [],
      if Finish(chunk) == "stop" && Unsent(w'.reasoning) then [ReasoningEnd(w'.reasoning.buffer, w'.reasoning.signature)] else [],
      UsageEvents(chunk.usage));
  }

  lemma LastPartsSend(w: Wire, w': Wire, stop: bool, usage: Option<TokenUsage>)
    requires w' == var closed := if stop then Closed(w) else w; if usage.Some? then SendUsage(closed, usage.value) else closed
    ensures w'.sent == w.sent
              + (if stop && Unsent(w.reasoning) then [ReasoningEnd(w.reasoning.buffer, w.reasoning.signature)] else [])
              + UsageEvents(usage)
    ensures w'.reasoning.buffer == w.reasoning.buffer && w'.reasoning.signature == w.reasoning.signature
  {
  }

  /** The parts of an answer. */
  lemma AnswerParts(before: seq<Chunk>, chunk: Chunk, thinking: bool, closed: bool, end: Event, endNow: Event)
    requires chunk.Response? && thinking == HasThought(before) && closed == HasClosing(before)
    requires end == EndOf(before) && endNow == EndOf(before + [chunk])
    ensures var content, thought := ContentOf(chunk), ThoughtOf(chunk);
            Answer(before, chunk) ==
            (if content != "" && thinking && !closed then [end] else [])
            + (if content != "" then [Text(content)] else [])
            + (if thought != "" then [ReasoningDelta(thought)] else [])
            + (if Finish(chunk) == "stop" && !closed && (if thinking then content == "" else thought != "") then [endNow] else [])
            + UsageEvents(chunk.usage)
  {
  }

  lemma FiveParts(sent: Events, a: Events, b: Events, c: Events, d: Events, e: Events)
    ensures (sent + a + b + c) + d + e == sent + (a + b + c + d + e)
  {
  }

  /** The events sent before the stream ends are the answers to its chunks. */
  lemma {:induction false} RunAnswers(chunks: seq<Chunk>)
    requires NoFailure(chunks)
    ensures IsAnswered(chunks)
  {
    if chunks != [] {
      RunAnswers(chunks[..|chunks| - 1]);
      OneMoreAnswered(chunks);
    }
  }

  ghost predicate IsAnswered(chunks: seq<Chunk>)
    requires NoFailure(chunks)
  {
    Run(chunks).wire.sent == Answers(chunks)
  }

  lemma OneMoreAnswered(chunks: seq<Chunk>)
    requires NoFailure(chunks) && chunks != [] && IsAnswered(chunks[..|chunks| - 1])
    ensures IsAnswered(chunks)
  {
    var before, chunk := chunks[..|chunks| - 1], chunks[|chunks| - 1];
    var s, s', answers, answers' := Run(before), Run(chunks), Answers(before), Answers(chunks);
    RunRemembers(before);
    RunRemembers(chunks);
    LastStep(chunks);
    AnsweredAfter(s, s', answers, before, chunk, chunks);
    assert answers' == answers + Answer(before, chunk);
  }

  lemma LastStep(chunks: seq<Chunk>)
    requires NoFailure(chunks) && chunks != []
    ensures var before, chunk := chunks[..|chunks| - 1], chunks[|chunks| - 1];
            && chunk.Response? && chunks == before + [chunk]
            && Run(chunks) == OnResponse(Run(before), chunk)
            && Answers(chunks) == Answers(before) + Answer(before, chunk)
  {
  }

  lemma AnsweredAfter(s: ChatState, s': ChatState, answers: Events, before: seq<Chunk>, chunk: Chunk, now: seq<Chunk>)
    requires chunk.Response? && now == before + [chunk] && s' == OnResponse(s, chunk) && s.wire.sent == answers
    requires Remembers(s.wire, before) && Remembers(s'.wire, now)
    ensures s'.wire.sent == answers + Answer(before, chunk)
  {
    ChunkAnswers(s, before, chunk);
  }

  ghost predicate DeliversWith(events: Events, chunks: seq<Chunk>, last: Event) {
    var heard := Heard(chunks);
    var open := HasThought(heard) && !HasClosing(heard);
    && (last == Error <==> heard != chunks)
    && events == Answers(heard) + (if heard == chunks && open && !FinishesInToolCalls(heard) then [EndOf(heard)] else []) + [last]
  }

  ghost predicate Delivers(events: Events, chunks: seq<Chunk>) {
    exists last :: Terminal(last) && DeliversWith(events, chunks, last)
  }

  /** Every event of a stream: the answers to the chunks read, the end of reasoning that is still
      open unless the stream failed or finished in tool calls, and one terminal event. */
  lemma AllEvents(chunks: seq<Chunk>) returns (last: Event)
    ensures Terminal(last) && DeliversWith(ChatEvents(chunks), chunks, last)
  {
    var heard := Heard(chunks);
    RunAnswers(heard);
    assert IsAnswered(heard);
    if heard == chunks {
      last := FinishedEvents(chunks);
    } else {
      last := Error;
      assert Answers(heard) + [] == Answers(heard);
    }
  }

  lemma FinishedEvents(chunks: seq<Chunk>) returns (last: Event)
    requires NoFailure(chunks)
    ensures Terminal(last) && last != Error
    ensures Finished(Run(chunks)) ==
            Run(chunks).wire.sent
            + (if HasThought(chunks) && !HasClosing(chunks) && !FinishesInToolCalls(chunks) then [EndOf(chunks)] else []) + [last]
  {
    var s := Run(chunks);
    RunRemembers(chunks);
    RunFinishes(chunks);
    if s.toolCalls != [] {
      last := ToolCalls(s.toolCalls);
      assert s.wire.sent + [] == s.wire.sent;
    } else {
      var calls := Flush(s.buffers, true);
      last := if calls != [] then ToolCalls(calls) else End;
    }
  }
}
